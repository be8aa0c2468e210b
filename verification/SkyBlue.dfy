/** The shared SkyBlue session: who may log in, and when.

    Calls of `login` run concurrently and meet in three Redis keys. A Redis command takes effect at
    one instant, and its caller goes on at most `latency` milliseconds later; a request takes at most
    HTTP milliseconds. The clock is part of the state. A call may also stop for ever at any point. */
module SkyBlue {
  import opened Tables

  const HTTP := 12000
  const LOCK_TTL := 40000
  const BLOCK_TTL := 600000
  const WAIT := 15000
  const PAUSE := 150

  // A lock is its token, here the call that made it, and the end of its life.
  datatype Lock = Lock(token: nat, until: nat)

  /** Where a call stands; with the lock it goes on at the instant `due` at the latest. */
  datatype Stage =
    | Loop
    | ReadSession
    | TryLock
    | Sleeping(until: nat)
    | ReadBlocked(due: nat)
    | ReadLatest(due: nat)
    | GetPage(due: nat)
    | Post(cookie: Option<string>, due: nat)
    | Store(session: string, due: nat)
    | SetBlocked(due: nat)
    | DropSession
    | Release(result: Option<string>)
    | Ended(result: Option<string>)
    | Stopped

  // `got` is the instant the call took the lock; `rounds` counts the rounds of its loop.
  datatype Call = Call(stale: Option<string>, start: nat, rounds: nat, got: nat, stage: Stage)

  datatype Sky = Sky(
    latency: nat, now: nat, session: Option<string>, lock: Option<Lock>, blocked: nat,
    calls: map<nat, Call>, next: nat)

  // What a request answers: success with or without a cookie, a refusal, or no usable answer.
  datatype Answer = Accepted(cookie: Option<string>) | Rejected | Unavailable

  // getEsimDetail blocks logins and drops the session after a fresh session was rejected; the
  // session also expires by itself.
  datatype Event =
    | Starts(stale: Option<string>)
    | Goes(call: nat, answer: Answer)
    | Stops(call: nat)
    | Blocks
    | Drops
    | Ticks(ms: nat)

  function Held(s: Sky): Option<Lock> {
    if s.lock.Some? && s.now < s.lock.value.until then s.lock else None
  }

  predicate Blocked(s: Sky) {
    s.now < s.blocked
  }

  predicate Truthy(text: Option<string>) {
    text.Some? && text.value != ""
  }

  // `session && session !== stale`
  predicate Fresh(session: Option<string>, stale: Option<string>) {
    Truthy(session) && session != stale
  }

  function SetStage(s: Sky, c: nat, stage: Stage): Sky
    requires c in s.calls
  {
    s.(calls := s.calls[c := s.calls[c].(stage := stage)])
  }

  // After the login request: the new cookie, or else the one of the page.
  function AfterPost(s: Sky, cookie: Option<string>, answer: Answer): Stage {
    var due := s.now + s.latency;
    match answer
    case Accepted(own) =>
      var session := if Truthy(own) then own else cookie;
      if Truthy(session) then Store(session.value, due) else SetBlocked(due)
    case Rejected => SetBlocked(due)
    case Unavailable => Release(None)
  }

  function Go(s: Sky, c: nat, answer: Answer): Sky
    requires c in s.calls
  {
    var k := s.calls[c];
    match k.stage
    case Loop =>
      if s.now >= k.start + WAIT then SetStage(s, c, Ended(None)) // login busy
      else
        var stage := if Blocked(s) then Ended(None) else ReadSession;
        s.(calls := s.calls[c := k.(rounds := k.rounds + 1, stage := stage)])
    case ReadSession => SetStage(s, c, if Fresh(s.session, k.stale) then Ended(s.session) else TryLock)
    case TryLock =>
      if Held(s).None? then
        s.(lock := Some(Lock(c, s.now + LOCK_TTL)),
           calls := s.calls[c := k.(got := s.now, stage := ReadBlocked(s.now + s.latency))])
      else SetStage(s, c, Sleeping(s.now + PAUSE))
    case Sleeping(until) => if s.now < until then s else SetStage(s, c, Loop)
    case ReadBlocked(_) => SetStage(s, c, if Blocked(s) then Release(None) else ReadLatest(s.now + s.latency))
    case ReadLatest(_) =>
      SetStage(s, c, if Fresh(s.session, k.stale) then Release(s.session) else GetPage(s.now + s.latency + HTTP))
    case GetPage(_) =>
      SetStage(s, c, if answer.Accepted? then Post(answer.cookie, s.now + HTTP) else Release(None))
    case Post(cookie, _) => SetStage(s, c, AfterPost(s, cookie, answer))
    case Store(session, _) => SetStage(s.(session := Some(session)), c, Release(Some(session)))
    case SetBlocked(_) => SetStage(s.(blocked := s.now + BLOCK_TTL), c, DropSession)
    case DropSession => SetStage(s.(session := None), c, Release(None))
    case Release(result) =>
      var s' := if Held(s).Some? && Held(s).value.token == c then s.(lock := None) else s;
      SetStage(s', c, Ended(result))
    case Ended(_) => s
    case Stopped => s
  }

  function Next(s: Sky, e: Event): Sky
    requires e.Goes? || e.Stops? ==> e.call in s.calls
  {
    match e
    case Starts(stale) => s.(calls := s.calls[s.next := Call(stale, s.now, 0, 0, Loop)], next := s.next + 1)
    case Goes(c, answer) => Go(s, c, answer)
    case Stops(c) => SetStage(s, c, Stopped)
    case Blocks => s.(blocked := s.now + BLOCK_TTL)
    case Drops => s.(session := None)
    case Ticks(ms) => s.(now := s.now + ms)
  }

  // The command that follows the login request.
  predicate Late(stage: Stage) {
    stage.Store? || stage.SetBlocked?
  }

  predicate Timed(stage: Stage) {
    stage.ReadBlocked? || stage.ReadLatest? || stage.GetPage? || stage.Post? || Late(stage)
  }

  /** Time does not run past the instant at which a call goes on at the latest. */
  predicate Enabled(s: Sky, e: Event) {
    match e
    case Goes(c, _) => c in s.calls
    case Stops(c) => c in s.calls
    case Ticks(ms) => forall c | c in s.calls && Timed(s.calls[c].stage) :: s.now + ms <= s.calls[c].stage.due
    case _ => true
  }

  predicate Allowed(s: Sky, es: seq<Event>)
    decreases |es|
  {
    es == [] || (Enabled(s, es[0]) && Allowed(Next(s, es[0]), es[1..]))
  }

  function Exec(s: Sky, es: seq<Event>): Sky
    requires Allowed(s, es)
    decreases |es|
  {
    if es == [] then s else Exec(Next(s, es[0]), es[1..])
  }

  predicate Initial(s: Sky) {
    s.calls == map[] && s.lock.None?
  }

  // Redis is fast enough: two requests and `commands` Redis commands fit into the life of the lock.
  predicate Fits(latency: nat, commands: nat) {
    commands * latency + 24000 < 40000
  }

  // ---------- the invariant ----------

  // How much of the lock's life may have passed at the latest when the stage is over.
  function Spent(latency: nat, stage: Stage): nat
    requires Timed(stage)
  {
    match stage
    case ReadBlocked(_) => latency
    case ReadLatest(_) => 2 * latency
    case GetPage(_) => 3 * latency + HTTP
    case Post(_, _) => 3 * latency + 2 * HTTP
    case Store(_, _) => 4 * latency + 2 * HTTP
    case SetBlocked(_) => 4 * latency + 2 * HTTP
  }

  predicate TimedOk(s: Sky, c: nat)
    requires c in s.calls
  {
    var k := s.calls[c];
    Timed(k.stage) ==>
      && s.now <= k.stage.due <= k.got + Spent(s.latency, k.stage)
      && (!Late(k.stage) || Fits(s.latency, 4) ==> s.lock == Some(Lock(c, k.got + LOCK_TTL)))
      && (Fits(s.latency, 4) && (k.stage.GetPage? || k.stage.Post?) ==> !Fresh(s.session, k.stale))
  }

  predicate RoundsOk(s: Sky, c: nat)
    requires c in s.calls
  {
    var k := s.calls[c];
    && k.start <= s.now
    && (if k.stage.Loop? then k.rounds * PAUSE <= s.now - k.start
        else if k.stage.Sleeping? then k.rounds * PAUSE <= k.stage.until - k.start
        else k.stage.ReadSession? || k.stage.TryLock? ==> k.rounds >= 1 && (k.rounds - 1) * PAUSE <= s.now - k.start)
    && (k.rounds - 1) * PAUSE < WAIT
  }

  predicate CallOk(s: Sky, c: nat)
    requires c in s.calls
  {
    c < s.next && TimedOk(s, c)
  }

  predicate Valid(s: Sky) {
    && Fits(s.latency, 3)
    && (forall c | c in s.calls :: CallOk(s, c))
  }

  // This part of the invariant does not depend on how fast Redis is.
  predicate Paced(s: Sky) {
    forall c | c in s.calls :: c < s.next && RoundsOk(s, c)
  }

  // The bounds leave the lock alive in every bounded stage.
  lemma TimedHolds(s: Sky, c: nat)
    requires Valid(s) && c in s.calls && Timed(s.calls[c].stage)
    requires !Late(s.calls[c].stage) || Fits(s.latency, 4)
    ensures Held(s) == Some(Lock(c, s.calls[c].got + LOCK_TTL))
  {
    assert CallOk(s, c);
  }

  lemma GoTimed(s: Sky, c: nat, answer: Answer)
    requires Valid(s) && c in s.calls
    ensures c in Go(s, c, answer).calls && TimedOk(Go(s, c, answer), c)
  {
    assert CallOk(s, c);
  }

  // A call that goes on leaves the lock of a bounded call alone, and lets no fresh session appear.
  lemma GoLeaves(s: Sky, c: nat, answer: Answer, d: nat)
    requires Valid(s) && c in s.calls && d in s.calls && d != c && Timed(s.calls[d].stage)
    requires !Late(s.calls[d].stage) || Fits(s.latency, 4)
    ensures Go(s, c, answer).lock == s.lock
    ensures Fits(s.latency, 4) && Fresh(Go(s, c, answer).session, s.calls[d].stale) ==>
              Fresh(s.session, s.calls[d].stale)
  {
    assert CallOk(s, c) && CallOk(s, d);
    TimedHolds(s, d);
  }

  lemma GoRow(s: Sky, c: nat, answer: Answer, d: nat)
    requires c in s.calls && d in s.calls && d != c
    ensures var s' := Go(s, c, answer);
            && d in s'.calls && s'.calls[d] == s.calls[d]
            && s'.now == s.now && s'.latency == s.latency && s'.next == s.next
  {
  }

  lemma GoOthers(s: Sky, c: nat, answer: Answer, d: nat)
    requires Valid(s) && c in s.calls && d in s.calls && d != c
    ensures d in Go(s, c, answer).calls && CallOk(Go(s, c, answer), d)
  {
    GoRow(s, c, answer, d);
    assert CallOk(s, d);
    if Timed(s.calls[d].stage) && (!Late(s.calls[d].stage) || Fits(s.latency, 4)) {
      GoLeaves(s, c, answer, d);
    }
  }

  lemma GoKeeps(s: Sky, c: nat, answer: Answer)
    requires Valid(s) && c in s.calls
    ensures Valid(Go(s, c, answer))
  {
    var s' := Go(s, c, answer);
    assert CallOk(s, c);
    GoTimed(s, c, answer);
    forall d | d in s'.calls ensures CallOk(s', d) {
      if d != c {
        GoOthers(s, c, answer, d);
      }
    }
  }

  lemma NextKeeps(s: Sky, e: Event)
    requires Valid(s) && Enabled(s, e)
    ensures Valid(Next(s, e))
  {
    if e.Goes? {
      GoKeeps(s, e.call, e.answer);
    } else {
      var s' := Next(s, e);
      forall d | d in s'.calls ensures CallOk(s', d) {
        assert d in s.calls ==> CallOk(s, d);
      }
    }
  }

  lemma {:induction false} RunKeeps(s: Sky, es: seq<Event>)
    requires Valid(s) && Allowed(s, es)
    ensures Valid(Exec(s, es)) && Exec(s, es).latency == s.latency
    decreases |es|
  {
    if es != [] {
      NextKeeps(s, es[0]);
      RunKeeps(Next(s, es[0]), es[1..]);
    }
  }

  lemma GoRounds(s: Sky, c: nat, answer: Answer)
    requires Paced(s) && c in s.calls
    ensures c in Go(s, c, answer).calls && RoundsOk(Go(s, c, answer), c)
  {
  }

  lemma NextPaced(s: Sky, e: Event)
    requires Paced(s) && Enabled(s, e)
    ensures Paced(Next(s, e))
  {
    if e.Goes? {
      GoRounds(s, e.call, e.answer);
      forall d | d in s.calls && d != e.call ensures RoundsOk(Next(s, e), d) {
        GoRow(s, e.call, e.answer, d);
      }
    }
  }

  lemma {:induction false} RunPaced(s: Sky, es: seq<Event>)
    requires Paced(s) && Allowed(s, es)
    ensures Paced(Exec(s, es))
    decreases |es|
  {
    if es != [] {
      NextPaced(s, es[0]);
      RunPaced(Next(s, es[0]), es[1..]);
    }
  }

  // ---------- what holds in every run ----------

  predicate Posting(s: Sky, c: nat) {
    c in s.calls && s.calls[c].stage.Post?
  }

  /** While three commands and two requests fit into the life of the lock, at most one login request is
      on its way, and its call holds the lock while it is. */
  lemma OneLoginAtATime(s: Sky, es: seq<Event>, c: nat, d: nat)
    requires Initial(s) && Fits(s.latency, 3) && Allowed(s, es) && Posting(Exec(s, es), c)
    ensures Held(Exec(s, es)).Some? && Held(Exec(s, es)).value.token == c
    ensures Posting(Exec(s, es), d) ==> d == c
  {
    RunKeeps(s, es);
    assert CallOk(Exec(s, es), c);
    assert Posting(Exec(s, es), d) ==> CallOk(Exec(s, es), d);
  }

  /** With one command more, a login request is sent only while the stored session is absent or the
      caller's stale one, and nobody overwrites the session without the lock. */
  lemma LoginOnlyWhenStale(s: Sky, es: seq<Event>, c: nat)
    requires Initial(s) && Fits(s.latency, 4) && Allowed(s, es) && Posting(Exec(s, es), c)
    ensures !Fresh(Exec(s, es).session, Exec(s, es).calls[c].stale)
  {
    RunKeeps(s, es);
    assert CallOk(Exec(s, es), c);
  }

  lemma StoresUnderLock(s: Sky, es: seq<Event>, c: nat, answer: Answer)
    requires Initial(s) && Fits(s.latency, 4) && Allowed(s, es) && c in Exec(s, es).calls
    requires Go(Exec(s, es), c, answer).session.Some?
    requires Go(Exec(s, es), c, answer).session != Exec(s, es).session
    ensures Held(Exec(s, es)).Some? && Held(Exec(s, es)).value.token == c
  {
    RunKeeps(s, es);
    assert CallOk(Exec(s, es), c);
  }

  /** No event takes away or replaces the lock of a call while it lives, but that call itself: release
      compares the token. */
  lemma LocksAreSafe(s: Sky, e: Event)
    requires Enabled(s, e) && Held(s).Some? && (e.Goes? ==> Held(s).value.token != e.call)
    ensures Next(s, e).lock == s.lock
  {
  }

  /** The loop of a login makes at most 100 rounds. */
  lemma AtMostHundredRounds(s: Sky, es: seq<Event>, c: nat)
    requires Initial(s) && Allowed(s, es) && c in Exec(s, es).calls
    ensures Exec(s, es).calls[c].rounds <= 100
  {
    RunPaced(s, es);
  }

  // ---------- the bound is exact ----------

  lemma Extend(s: Sky, es: seq<Event>, e: Event, after: Sky)
    requires Allowed(s, es) && Enabled(Exec(s, es), e) && Next(Exec(s, es), e) == after
    ensures Allowed(s, es + [e]) && Exec(s, es + [e]) == after
    decreases |es|
  {
    if es == [] {
      assert es + [e] == [e];
      assert [e][1..] == [];
    } else {
      assert (es + [e])[1..] == es[1..] + [e];
      Extend(Next(s, es[0]), es[1..], e, after);
    }
  }

  function Empty(latency: nat): Sky {
    Sky(latency, 0, None, None, 0, map[], 0)
  }

  /** What runs lead to from empty keys. */
  ghost predicate Reachable(latency: nat, s: Sky) {
    exists es | Allowed(Empty(latency), es) :: Exec(Empty(latency), es) == s
  }

  lemma IsReachable(latency: nat, es: seq<Event>)
    requires Allowed(Empty(latency), es)
    ensures Reachable(latency, Exec(Empty(latency), es))
  {
  }

  // The first call has the lock since instant 0.
  function First(latency: nat, now: nat, stage: Stage): Sky {
    Sky(latency, now, None, Some(Lock(0, LOCK_TTL)), 0, map[0 := Call(None, 0, 1, 0, stage)], 1)
  }

  // That lock is dead, and the second call has taken the lock at that instant.
  function Second(latency: nat, first: Stage, stage: Stage): Sky {
    Sky(latency, LOCK_TTL, None, Some(Lock(1, 2 * LOCK_TTL)), 0,
        map[0 := Call(None, 0, 1, 0, first), 1 := Call(None, LOCK_TTL, 1, LOCK_TTL, stage)], 2)
  }

  // A call without a stale session goes through the loop and takes the lock.
  lemma FirstLocks(latency: nat) returns (es: seq<Event>)
    ensures Allowed(Empty(latency), es) && Exec(Empty(latency), es) == First(latency, 0, ReadBlocked(latency))
  {
    var s0 := Empty(latency);
    var k := Call(None, 0, 1, 0, ReadSession);
    var s1 := s0.(next := 1, calls := map[0 := Call(None, 0, 0, 0, Loop)]);
    Extend(s0, [], Starts(None), s1);
    es := [Starts(None)];
    Extend(s0, es, Goes(0, Unavailable), s1.(calls := map[0 := k]));
    es := es + [Goes(0, Unavailable)];
    Extend(s0, es, Goes(0, Unavailable), s1.(calls := map[0 := k.(stage := TryLock)]));
    es := es + [Goes(0, Unavailable)];
    Extend(s0, es, Goes(0, Unavailable), First(latency, 0, ReadBlocked(latency)));
    es := es + [Goes(0, Unavailable)];
  }

  // Three commands that take `slow` milliseconds each, and a page that takes as long as it may.
  lemma FirstPosts(latency: nat, slow: nat) returns (es: seq<Event>)
    requires slow <= latency
    ensures Allowed(Empty(latency), es)
    ensures Exec(Empty(latency), es) == First(latency, 3 * slow + HTTP, Post(None, 3 * slow + 2 * HTTP))
  {
    var s0 := Empty(latency);
    var latest, page := ReadLatest(slow + latency), GetPage(2 * slow + latency + HTTP);
    es := FirstLocks(latency);
    Extend(s0, es, Ticks(slow), First(latency, slow, ReadBlocked(latency)));
    es := es + [Ticks(slow)];
    Extend(s0, es, Goes(0, Unavailable), First(latency, slow, latest));
    es := es + [Goes(0, Unavailable)];
    Extend(s0, es, Ticks(slow), First(latency, 2 * slow, latest));
    es := es + [Ticks(slow)];
    Extend(s0, es, Goes(0, Unavailable), First(latency, 2 * slow, page));
    es := es + [Goes(0, Unavailable)];
    Extend(s0, es, Ticks(slow + HTTP), First(latency, 3 * slow + HTTP, page));
    es := es + [Ticks(slow + HTTP)];
    Extend(s0, es, Goes(0, Accepted(None)), First(latency, 3 * slow + HTTP, Post(None, 3 * slow + 2 * HTTP)));
    es := es + [Goes(0, Accepted(None))];
  }

  // When the lock of the first call dies, a second call takes it.
  lemma SecondLocks(latency: nat, before: seq<Event>, first: Stage) returns (es: seq<Event>)
    requires Allowed(Empty(latency), before) && Exec(Empty(latency), before) == First(latency, LOCK_TTL, first)
    ensures Allowed(Empty(latency), es)
    ensures Exec(Empty(latency), es) == Second(latency, first, ReadBlocked(LOCK_TTL + latency))
  {
    var s0 := Empty(latency);
    var k := Call(None, LOCK_TTL, 1, 0, ReadSession);
    var s := First(latency, LOCK_TTL, first).(next := 2);
    es := before;
    Extend(s0, es, Starts(None), s.(calls := s.calls[1 := Call(None, LOCK_TTL, 0, 0, Loop)]));
    es := es + [Starts(None)];
    Extend(s0, es, Goes(1, Unavailable), s.(calls := s.calls[1 := k]));
    es := es + [Goes(1, Unavailable)];
    Extend(s0, es, Goes(1, Unavailable), s.(calls := s.calls[1 := k.(stage := TryLock)]));
    es := es + [Goes(1, Unavailable)];
    Extend(s0, es, Goes(1, Unavailable), Second(latency, first, ReadBlocked(LOCK_TTL + latency)));
    es := es + [Goes(1, Unavailable)];
  }

  // And sends its login request at once.
  lemma SecondPosts(latency: nat, before: seq<Event>, first: Stage) returns (es: seq<Event>)
    requires Allowed(Empty(latency), before) && Exec(Empty(latency), before) == First(latency, LOCK_TTL, first)
    ensures Allowed(Empty(latency), es)
    ensures Exec(Empty(latency), es) == Second(latency, first, Post(None, LOCK_TTL + HTTP))
  {
    var s0 := Empty(latency);
    es := SecondLocks(latency, before, first);
    Extend(s0, es, Goes(1, Unavailable), Second(latency, first, ReadLatest(LOCK_TTL + latency)));
    es := es + [Goes(1, Unavailable)];
    Extend(s0, es, Goes(1, Unavailable), Second(latency, first, GetPage(LOCK_TTL + latency + HTTP)));
    es := es + [Goes(1, Unavailable)];
    Extend(s0, es, Goes(1, Accepted(None)), Second(latency, first, Post(None, LOCK_TTL + HTTP)));
    es := es + [Goes(1, Accepted(None))];
  }

  // With three commands of this length the login request is still out when the lock dies.
  const SLOW := 5334

  lemma TwoLogins(latency: nat) returns (es: seq<Event>)
    requires latency >= SLOW
    ensures Allowed(Empty(latency), es) && Posting(Exec(Empty(latency), es), 0) && Posting(Exec(Empty(latency), es), 1)
  {
    var post := Post(None, 3 * SLOW + 2 * HTTP);
    es := FirstPosts(latency, SLOW);
    Extend(Empty(latency), es, Ticks(LOCK_TTL - 3 * SLOW - HTTP), First(latency, LOCK_TTL, post));
    es := SecondPosts(latency, es + [Ticks(LOCK_TTL - 3 * SLOW - HTTP)], post);
  }

  ghost predicate Apart(s: Sky) {
    forall c, d | Posting(s, c) && Posting(s, d) :: c == d
  }

  lemma ApartWhenFast(latency: nat, s: Sky)
    requires Fits(latency, 3) && Reachable(latency, s)
    ensures Apart(s)
  {
    var es :| Allowed(Empty(latency), es) && Exec(Empty(latency), es) == s;
    forall c, d | Posting(s, c) && Posting(s, d) ensures c == d {
      OneLoginAtATime(Empty(latency), es, c, d);
    }
  }

  lemma NotApart(s: Sky)
    requires Posting(s, 0) && Posting(s, 1)
    ensures !Apart(s)
  {
    assert 0 != 1;
  }

  /** The lock keeps logins apart exactly when three Redis commands and two requests fit into its life:
      a slower Redis lets two login requests be out at the same time. */
  lemma LockSufficesExactlyWhen(latency: nat)
    ensures Fits(latency, 3) <==> forall s | Reachable(latency, s) :: Apart(s)
  {
    if Fits(latency, 3) {
      forall s | Reachable(latency, s) ensures Apart(s) {
        ApartWhenFast(latency, s);
      }
    } else {
      var es := TwoLogins(latency);
      IsReachable(latency, es);
      NotApart(Exec(Empty(latency), es));
    }
  }

  // With four commands of this length the new session is still to be stored when the lock dies.
  const SLUGGISH := 4000

  // What the first call does next: it stores its session without the lock.
  function Pending(latency: nat): Stage {
    Store("session", 3 * SLUGGISH + 2 * HTTP + latency)
  }

  lemma LateStore(latency: nat) returns (es: seq<Event>)
    requires latency >= SLUGGISH
    ensures Allowed(Empty(latency), es)
    ensures Exec(Empty(latency), es) == Second(latency, Pending(latency), Post(None, LOCK_TTL + HTTP))
  {
    var s0, post, at := Empty(latency), Post(None, 3 * SLUGGISH + 2 * HTTP), 3 * SLUGGISH + 2 * HTTP;
    es := FirstPosts(latency, SLUGGISH);
    Extend(s0, es, Ticks(HTTP), First(latency, at, post));
    es := es + [Ticks(HTTP)];
    Extend(s0, es, Goes(0, Accepted(Some("session"))), First(latency, at, Pending(latency)));
    es := es + [Goes(0, Accepted(Some("session")))];
    Extend(s0, es, Ticks(SLUGGISH), First(latency, LOCK_TTL, Pending(latency)));
    es := SecondPosts(latency, es + [Ticks(SLUGGISH)], Pending(latency));
  }

  // A login request is out although a session its caller does not know to be stale is stored.
  ghost predicate Needless(s: Sky) {
    exists c :: Posting(s, c) && Fresh(s.session, s.calls[c].stale)
  }

  lemma NeedlessLogin(latency: nat) returns (es: seq<Event>)
    requires latency >= SLUGGISH
    ensures Allowed(Empty(latency), es) && Needless(Exec(Empty(latency), es))
  {
    var s := Second(latency, Release(Some("session")), Post(None, LOCK_TTL + HTTP)).(session := Some("session"));
    es := LateStore(latency);
    Extend(Empty(latency), es, Goes(0, Unavailable), s);
    es := es + [Goes(0, Unavailable)];
    assert Posting(s, 1) && Fresh(s.session, s.calls[1].stale);
  }

  lemma NeededWhenFast(latency: nat, s: Sky)
    requires Fits(latency, 4) && Reachable(latency, s)
    ensures !Needless(s)
  {
    var es :| Allowed(Empty(latency), es) && Exec(Empty(latency), es) == s;
    forall c | Posting(s, c) ensures !Fresh(s.session, s.calls[c].stale) {
      LoginOnlyWhenStale(Empty(latency), es, c);
    }
  }

  /** No login is needless exactly when four Redis commands and two requests fit into the life of the lock. */
  lemma LoginsAreNeededExactlyWhen(latency: nat)
    ensures Fits(latency, 4) <==> forall s | Reachable(latency, s) :: !Needless(s)
  {
    if Fits(latency, 4) {
      forall s | Reachable(latency, s) ensures !Needless(s) {
        NeededWhenFast(latency, s);
      }
    } else {
      var es := NeedlessLogin(latency);
      IsReachable(latency, es);
    }
  }

  // The call would write a session, other than the stored one, without holding the lock.
  predicate Intrudes(s: Sky, c: nat, answer: Answer) {
    && c in s.calls && Go(s, c, answer).session.Some? && Go(s, c, answer).session != s.session
    && !(Held(s).Some? && Held(s).value.token == c)
  }

  ghost predicate Guarded(s: Sky) {
    forall c, answer :: !Intrudes(s, c, answer)
  }

  lemma GuardedWhenFast(latency: nat, s: Sky)
    requires Fits(latency, 4) && Reachable(latency, s)
    ensures Guarded(s)
  {
    var es :| Allowed(Empty(latency), es) && Exec(Empty(latency), es) == s;
    forall c, answer ensures !Intrudes(s, c, answer) {
      if Intrudes(s, c, answer) {
        StoresUnderLock(Empty(latency), es, c, answer);
      }
    }
  }

  lemma NotGuarded(s: Sky, c: nat, answer: Answer)
    requires Intrudes(s, c, answer)
    ensures !Guarded(s)
  {
  }

  /** Nobody stores a session without the lock exactly under the same bound. */
  lemma StoresAreGuardedExactlyWhen(latency: nat)
    ensures Fits(latency, 4) <==> forall s | Reachable(latency, s) :: Guarded(s)
  {
    if Fits(latency, 4) {
      forall s | Reachable(latency, s) ensures Guarded(s) {
        GuardedWhenFast(latency, s);
      }
    } else {
      var es := LateStore(latency);
      IsReachable(latency, es);
      NotGuarded(Exec(Empty(latency), es), 0, Unavailable);
    }
  }

  // ---------- the flag that blocks logins ----------

  // The call has read the flag for the last time: its login request is out, or is sent without another look.
  predicate PastFlag(s: Sky, c: nat) {
    c in s.calls && (s.calls[c].stage.ReadLatest? || s.calls[c].stage.GetPage? || s.calls[c].stage.Post?)
  }

  // Until the instant the flag stands, and the call is not past it.
  predicate Stopping(s: Sky, c: nat, until: nat) {
    until <= s.now + BLOCK_TTL && (s.now < until ==> until <= s.blocked && !PastFlag(s, c))
  }

  lemma StillStopping(s: Sky, e: Event, c: nat, until: nat)
    requires Enabled(s, e) && Stopping(s, c, until)
    ensures Stopping(Next(s, e), c, until)
  {
  }

  lemma {:induction false} StoppingForARun(s: Sky, es: seq<Event>, c: nat, until: nat)
    requires Allowed(s, es) && Stopping(s, c, until)
    ensures Stopping(Exec(s, es), c, until)
    decreases |es|
  {
    if es != [] {
      StillStopping(s, es[0], c, until);
      StoppingForARun(Next(s, es[0]), es[1..], c, until);
    }
  }

  lemma {:induction false} FlagIsBounded(s: Sky, es: seq<Event>)
    requires Allowed(s, es) && s.blocked <= s.now + BLOCK_TTL
    ensures Exec(s, es).blocked <= Exec(s, es).now + BLOCK_TTL
    decreases |es|
  {
    if es != [] {
      FlagIsBounded(Next(s, es[0]), es[1..]);
    }
  }

  // After the run the call has a login request out, and the flag that stood before it would still stand.
  predicate LogsInBlocked(s: Sky, es: seq<Event>, c: nat) {
    Allowed(s, es) && Exec(s, es).now < s.blocked && Posting(Exec(s, es), c)
  }

  lemma PastFlagLogsIn(s: Sky, c: nat) returns (es: seq<Event>)
    requires Blocked(s) && PastFlag(s, c)
    ensures LogsInBlocked(s, es, c)
  {
    es := [];
    if s.calls[c].stage.ReadLatest? {
      Extend(s, es, Drops, s.(session := None));
      es := [Drops];
      Extend(s, es, Goes(c, Unavailable), Go(s.(session := None), c, Unavailable));
      es := es + [Goes(c, Unavailable)];
    }
    if !s.calls[c].stage.Post? {
      Extend(s, es, Goes(c, Accepted(None)), Go(Exec(s, es), c, Accepted(None)));
      es := es + [Goes(c, Accepted(None))];
    }
  }

  /** While the flag stands, a call can have a login request out before the ten minutes are over exactly when
      it has read the flag for the last time already. */
  lemma LoginsDespiteFlagExactlyWhen(latency: nat, s: Sky, c: nat)
    requires Reachable(latency, s) && Blocked(s)
    ensures (exists es :: LogsInBlocked(s, es, c)) <==> PastFlag(s, c)
  {
    if PastFlag(s, c) {
      var es := PastFlagLogsIn(s, c);
      assert LogsInBlocked(s, es, c);
    } else {
      var before :| Allowed(Empty(latency), before) && Exec(Empty(latency), before) == s;
      FlagIsBounded(Empty(latency), before);
      forall es ensures !LogsInBlocked(s, es, c) {
        if Allowed(s, es) {
          StoppingForARun(s, es, c, s.blocked);
        }
      }
    }
  }

  /** There is such a call: one that is between its last look at the flag and its answer when getEsimDetail
      sets the flag. */
  lemma PastFlagReached(latency: nat) returns (s: Sky)
    ensures Reachable(latency, s) && Blocked(s) && PastFlag(s, 0)
  {
    var es := FirstPosts(latency, 0);
    s := First(latency, HTTP, Post(None, 2 * HTTP)).(blocked := HTTP + BLOCK_TTL);
    Extend(Empty(latency), es, Blocks, s);
    IsReachable(latency, es + [Blocks]);
  }

  // The call is about to set the flag, at `due` at the latest; or it has stopped; or the flag stands until
  // `until` at least.
  predicate Flagging(s: Sky, c: nat, due: nat, until: nat) {
    && c in s.calls && until <= s.now + BLOCK_TTL
    && match s.calls[c].stage
       case SetBlocked(at) => at == due && s.now <= due
       case DropSession => until <= s.blocked
       case Release(result) => until <= s.blocked && result.None?
       case Ended(result) => until <= s.blocked && result.None?
       case Stopped => true
       case _ => false
  }

  lemma StillFlagging(s: Sky, e: Event, c: nat, due: nat, until: nat)
    requires Enabled(s, e) && Flagging(s, c, due, until) && c < s.next
    ensures Flagging(Next(s, e), c, due, until) && c < Next(s, e).next
  {
  }

  lemma {:induction false} FlaggingForARun(s: Sky, es: seq<Event>, c: nat, due: nat, until: nat)
    requires Allowed(s, es) && Flagging(s, c, due, until) && c < s.next
    ensures Flagging(Exec(s, es), c, due, until)
    decreases |es|
  {
    if es != [] {
      StillFlagging(s, es[0], c, due, until);
      FlaggingForARun(Next(s, es[0]), es[1..], c, due, until);
    }
  }

  // The answer to the login request is a refusal, or brings no session.
  predicate Refused(stage: Stage, answer: Answer)
    requires stage.Post?
  {
    || answer.Rejected?
    || (answer.Accepted? && (answer.cookie.None? || answer.cookie.value == "")
        && (stage.cookie.None? || stage.cookie.value == ""))
  }

  /** When one more Redis command has passed since a login request was refused, its call has stopped, or the
      flag stands until ten minutes after the refusal at least. The call then deletes the stored session, and ends
      without one. */
  lemma RefusalIsFlagged(s: Sky, es: seq<Event>, c: nat, answer: Answer, more: seq<Event>)
    requires Initial(s) && Allowed(s, es) && Posting(Exec(s, es), c)
    requires Refused(Exec(s, es).calls[c].stage, answer) && Allowed(Go(Exec(s, es), c, answer), more)
    ensures var here, last := Exec(s, es), Exec(Go(Exec(s, es), c, answer), more);
            && c in last.calls
            && (last.now > here.now + here.latency ==>
                  last.calls[c].stage.Stopped? || here.now + 600000 <= last.blocked)
            && (match last.calls[c].stage
                case SetBlocked(_) => Go(last, c, Unavailable).calls[c].stage.DropSession?
                case DropSession => Go(last, c, Unavailable).session.None?
                case Release(result) => result.None?
                case Ended(result) => result.None?
                case Stopped => true
                case _ => false)
  {
    var here := Exec(s, es);
    RunPaced(s, es);
    assert RoundsOk(here, c);
    FlaggingForARun(Go(here, c, answer), more, c, here.now + here.latency, here.now + BLOCK_TTL);
  }

  // The event sets the flag at once, or refuses a login.
  predicate BlocksNow(s: Sky, e: Event) {
    || e.Blocks?
    || (e.Goes? && Posting(s, e.call) && Refused(s.calls[e.call].stage, e.answer))
  }

  predicate BlocksSometime(s: Sky, es: seq<Event>)
    requires Allowed(s, es)
    decreases |es|
  {
    es != [] && (BlocksNow(s, es[0]) || BlocksSometime(Next(s, es[0]), es[1..]))
  }

  predicate AboutToBlock(s: Sky, c: nat) {
    c in s.calls && s.calls[c].stage.SetBlocked?
  }

  lemma BlockedBy(s: Sky, e: Event, c: nat)
    requires Enabled(s, e)
    ensures Next(s, e).blocked != s.blocked ==> BlocksNow(s, e) || (e.Goes? && AboutToBlock(s, e.call))
    ensures AboutToBlock(Next(s, e), c) ==> BlocksNow(s, e) || AboutToBlock(s, c)
  {
  }

  lemma {:induction false} BlockedInRun(s: Sky, es: seq<Event>)
    requires Allowed(s, es) && (Exec(s, es).blocked != s.blocked || exists c :: AboutToBlock(Exec(s, es), c))
    ensures BlocksSometime(s, es) || exists c :: AboutToBlock(s, c)
    decreases |es|
  {
    if es != [] {
      var s' := Next(s, es[0]);
      if Exec(s', es[1..]).blocked != s'.blocked || exists c :: AboutToBlock(Exec(s', es[1..]), c) {
        BlockedInRun(s', es[1..]);
        if !BlocksSometime(s', es[1..]) {
          var c :| AboutToBlock(s', c);
          BlockedBy(s, es[0], c);
        }
      } else {
        BlockedBy(s, es[0], 0);
      }
    }
  }

  /** The flag changes in a run only if getEsimDetail set it, or a login was refused: no call sets it after a login
      that got a session, or after one that got no usable answer. */
  lemma FlagHasCause(s: Sky, es: seq<Event>)
    requires Initial(s) && Allowed(s, es) && Exec(s, es).blocked != s.blocked
    ensures BlocksSometime(s, es)
  {
    BlockedInRun(s, es);
  }

  // ---------- which session a call stores and returns ----------

  // The answer to the login request brings the session: the response's own cookie, or, only if that has none, the
  // one of the login page.
  predicate Brings(cookie: Option<string>, own: Option<string>, v: string) {
    && v != ""
    && (own == Some(v) || ((own.None? || own.value == "") && cookie == Some(v)))
  }

  // The call has it, and goes on to store and to return it.
  predicate Keeps(stage: Stage, v: string) {
    || (stage.Store? && stage.session == v)
    || ((stage.Release? || stage.Ended?) && stage.result == Some(v))
  }

  predicate KeepsOrStops(s: Sky, c: nat, v: string) {
    c in s.calls && c < s.next && (Keeps(s.calls[c].stage, v) || s.calls[c].stage.Stopped?)
  }

  lemma StillKeeps(s: Sky, e: Event, c: nat, v: string)
    requires Enabled(s, e) && KeepsOrStops(s, c, v)
    ensures KeepsOrStops(Next(s, e), c, v)
    ensures e.Goes? && e.call == c && s.calls[c].stage.Store? ==> Next(s, e).session == Some(v)
  {
  }

  lemma {:induction false} KeepsForARun(s: Sky, es: seq<Event>, c: nat, v: string)
    requires Allowed(s, es) && KeepsOrStops(s, c, v)
    ensures KeepsOrStops(Exec(s, es), c, v)
    decreases |es|
  {
    if es != [] {
      StillKeeps(s, es[0], c, v);
      KeepsForARun(Next(s, es[0]), es[1..], c, v);
    }
  }

  lemma AnswerKeeps(s: Sky, c: nat, own: Option<string>, v: string)
    requires Posting(s, c) && Brings(s.calls[c].stage.cookie, own, v)
    ensures var s' := Go(s, c, Accepted(own));
            c in s'.calls && s'.calls[c].stage.Store? && s'.calls[c].stage.session == v && s'.next == s.next
  {
  }

  /** The session a successful login stores, and later returns, is the cookie of the login response; that of the
      login page only if the response brings none. It goes on to be stored, whatever all others do, unless the call
      stops; and when it goes on from there, it is the stored session. */
  lemma LoginGivesItsSession(s: Sky, es: seq<Event>, c: nat, own: Option<string>, v: string, more: seq<Event>)
    requires Initial(s) && Allowed(s, es) && Posting(Exec(s, es), c)
    requires Brings(Exec(s, es).calls[c].stage.cookie, own, v)
    requires Allowed(Go(Exec(s, es), c, Accepted(own)), more)
    ensures var after, last := Go(Exec(s, es), c, Accepted(own)), Exec(Go(Exec(s, es), c, Accepted(own)), more);
            && after.calls[c].stage.Store? && after.calls[c].stage.session == v
            && c in last.calls
            && (match last.calls[c].stage
                case Store(session, _) => session == v && Go(last, c, Unavailable).session == Some(v)
                case Release(result) => result == Some(v)
                case Ended(result) => result == Some(v)
                case Stopped => true
                case _ => false)
  {
    RunPaced(s, es);
    AnswerKeeps(Exec(s, es), c, own, v);
    KeepsForARun(Go(Exec(s, es), c, Accepted(own)), more, c, v);
  }

  // The call logs in, and gets this session.
  predicate LogsInNow(s: Sky, e: Event, c: nat, v: string) {
    && e.Goes? && e.call == c && Posting(s, c)
    && e.answer.Accepted? && Brings(s.calls[c].stage.cookie, e.answer.cookie, v)
  }

  // The call reads this session, and takes it: it is not the one the call knows to be stale.
  predicate ReadsNow(s: Sky, e: Event, c: nat, v: string) {
    && e.Goes? && e.call == c && c in s.calls && (s.calls[c].stage.ReadSession? || s.calls[c].stage.ReadLatest?)
    && s.session == Some(v) && v != "" && s.calls[c].stale != Some(v)
  }

  /** The call has got the session in the run, by a login of its own or from the store. */
  predicate LoggedIn(s: Sky, es: seq<Event>, c: nat, v: string)
    requires Allowed(s, es)
    decreases |es|
  {
    es != [] && (LogsInNow(s, es[0], c, v) || LoggedIn(Next(s, es[0]), es[1..], c, v))
  }

  predicate HasRead(s: Sky, es: seq<Event>, c: nat, v: string)
    requires Allowed(s, es)
    decreases |es|
  {
    es != [] && (ReadsNow(s, es[0], c, v) || HasRead(Next(s, es[0]), es[1..], c, v))
  }

  predicate Has(s: Sky, c: nat, v: string) {
    c in s.calls && Keeps(s.calls[c].stage, v)
  }

  lemma GetsBy(s: Sky, e: Event, c: nat, v: string)
    requires Enabled(s, e) && Has(Next(s, e), c, v)
    ensures Has(s, c, v) || LogsInNow(s, e, c, v) || ReadsNow(s, e, c, v)
    ensures Next(s, e).calls[c].stage.Store? ==>
              (c in s.calls && s.calls[c].stage == Next(s, e).calls[c].stage) || LogsInNow(s, e, c, v)
  {
  }

  lemma {:induction false} GotInRun(s: Sky, es: seq<Event>, c: nat, v: string)
    requires Allowed(s, es) && Has(Exec(s, es), c, v)
    ensures Has(s, c, v) || LoggedIn(s, es, c, v) || HasRead(s, es, c, v)
    decreases |es|
  {
    if es != [] {
      GotInRun(Next(s, es[0]), es[1..], c, v);
      if Has(Next(s, es[0]), c, v) {
        GetsBy(s, es[0], c, v);
      }
    }
  }

  /** A call ends with a session only if it got that session from its own login, or read it in the store when it was
      not its stale one. */
  lemma SessionHasOrigin(s: Sky, es: seq<Event>, c: nat, v: string)
    requires Initial(s) && Allowed(s, es) && c in Exec(s, es).calls
    requires Exec(s, es).calls[c].stage == Ended(Some(v))
    ensures LoggedIn(s, es, c, v) || HasRead(s, es, c, v)
  {
    GotInRun(s, es, c, v);
  }

  // The call gives up: it has waited for 15 seconds, logins are blocked, a request got no usable answer, or its
  // login was refused.
  predicate GivesUpNow(s: Sky, e: Event, c: nat) {
    && e.Goes? && e.call == c && c in s.calls
    && match s.calls[c].stage
       case Loop => s.now >= s.calls[c].start + 15000 || s.now < s.blocked
       case ReadBlocked(_) => s.now < s.blocked
       case GetPage(_) => !e.answer.Accepted?
       case Post(_, _) => e.answer.Unavailable? || Refused(s.calls[c].stage, e.answer)
       case _ => false
  }

  predicate GaveUp(s: Sky, es: seq<Event>, c: nat)
    requires Allowed(s, es)
    decreases |es|
  {
    es != [] && (GivesUpNow(s, es[0], c) || GaveUp(Next(s, es[0]), es[1..], c))
  }

  predicate Fruitless(s: Sky, c: nat) {
    && c in s.calls
    && match s.calls[c].stage
       case SetBlocked(_) => true
       case DropSession => true
       case Release(result) => result.None?
       case Ended(result) => result.None?
       case _ => false
  }

  lemma FruitlessBy(s: Sky, e: Event, c: nat)
    requires Enabled(s, e) && Fruitless(Next(s, e), c)
    ensures Fruitless(s, c) || GivesUpNow(s, e, c)
  {
  }

  lemma {:induction false} FruitlessInRun(s: Sky, es: seq<Event>, c: nat)
    requires Allowed(s, es) && Fruitless(Exec(s, es), c)
    ensures Fruitless(s, c) || GaveUp(s, es, c)
    decreases |es|
  {
    if es != [] {
      FruitlessInRun(Next(s, es[0]), es[1..], c);
      if Fruitless(Next(s, es[0]), c) {
        FruitlessBy(s, es[0], c);
      }
    }
  }

  /** A call ends without a session only for one of these reasons: the 15 seconds are over, logins are blocked, the page
      or the login got no usable answer, or the login was refused. */
  lemma FailureHasCause(s: Sky, es: seq<Event>, c: nat)
    requires Initial(s) && Allowed(s, es) && c in Exec(s, es).calls && Exec(s, es).calls[c].stage == Ended(None)
    ensures GaveUp(s, es, c)
  {
    FruitlessInRun(s, es, c);
  }

  predicate PageNow(s: Sky, e: Event, c: nat, cookie: Option<string>) {
    e == Goes(c, Accepted(cookie)) && c in s.calls && s.calls[c].stage.GetPage?
  }

  predicate GotPage(s: Sky, es: seq<Event>, c: nat, cookie: Option<string>)
    requires Allowed(s, es)
    decreases |es|
  {
    es != [] && (PageNow(s, es[0], c, cookie) || GotPage(Next(s, es[0]), es[1..], c, cookie))
  }

  lemma PageBy(s: Sky, e: Event, c: nat)
    requires Enabled(s, e) && Posting(Next(s, e), c)
    ensures var cookie := Next(s, e).calls[c].stage.cookie;
            (Posting(s, c) && s.calls[c].stage.cookie == cookie) || PageNow(s, e, c, cookie)
  {
  }

  lemma {:induction false} PageInRun(s: Sky, es: seq<Event>, c: nat)
    requires Allowed(s, es) && Posting(Exec(s, es), c)
    ensures var cookie := Exec(s, es).calls[c].stage.cookie;
            (Posting(s, c) && s.calls[c].stage.cookie == cookie) || GotPage(s, es, c, cookie)
    decreases |es|
  {
    if es != [] {
      PageInRun(Next(s, es[0]), es[1..], c);
      if Posting(Next(s, es[0]), c) {
        PageBy(s, es[0], c);
      }
    }
  }

  /** The cookie a login request goes out with, and falls back to, is the one the login page set. */
  lemma CookieIsOfPage(s: Sky, es: seq<Event>, c: nat)
    requires Initial(s) && Allowed(s, es) && Posting(Exec(s, es), c)
    ensures GotPage(s, es, c, Exec(s, es).calls[c].stage.cookie)
  {
    PageInRun(s, es, c);
  }

  // The call is about to store this session.
  predicate Storing(s: Sky, c: nat, v: string) {
    c in s.calls && s.calls[c].stage.Store? && s.calls[c].stage.session == v
  }

  lemma {:induction false} StoringInRun(s: Sky, es: seq<Event>, c: nat, v: string)
    requires Allowed(s, es) && Storing(Exec(s, es), c, v)
    ensures Storing(s, c, v) || LoggedIn(s, es, c, v)
    decreases |es|
  {
    if es != [] {
      StoringInRun(Next(s, es[0]), es[1..], c, v);
      if Storing(Next(s, es[0]), c, v) {
        GetsBy(s, es[0], c, v);
      }
    }
  }

  lemma StoredBy(s: Sky, e: Event, v: string)
    requires Enabled(s, e) && Next(s, e).session == Some(v) && s.session != Some(v)
    ensures e.Goes? && Storing(s, e.call, v)
  {
  }

  // Some call is about to store the session, or has got it by its login in the run.
  ghost predicate SomeLogin(s: Sky, es: seq<Event>, v: string)
    requires Allowed(s, es)
  {
    exists c :: LoggedIn(s, es, c, v)
  }

  lemma {:induction false} StoredInRun(s: Sky, es: seq<Event>, v: string)
    requires Allowed(s, es) && Exec(s, es).session == Some(v)
    ensures s.session == Some(v) || SomeLogin(s, es, v) || exists c :: Storing(s, c, v)
    decreases |es|
  {
    if es != [] {
      StoredInRun(Next(s, es[0]), es[1..], v);
      if Next(s, es[0]).session == Some(v) {
        if s.session != Some(v) {
          StoredBy(s, es[0], v);
        }
      } else if SomeLogin(Next(s, es[0]), es[1..], v) {
        var c :| LoggedIn(Next(s, es[0]), es[1..], c, v);
        assert LoggedIn(s, es, c, v);
      } else {
        var c :| Storing(Next(s, es[0]), c, v);
        GetsBy(s, es[0], c, v);
        if !Storing(s, c, v) {
          assert LoggedIn(s, es, c, v);
        }
      }
    }
  }

  /** And a session is stored only if it was before the run, or some call got it by its login. */
  lemma StoredSessionHasOrigin(s: Sky, es: seq<Event>, v: string)
    requires Initial(s) && Allowed(s, es) && Exec(s, es).session == Some(v)
    ensures s.session == Some(v) || SomeLogin(s, es, v)
  {
    StoredInRun(s, es, v);
  }

  // ---------- the gateway as it is written: Redis keys set and deleted in place ----------

  class Gateway {
    const latency: nat
    var now: nat
    var session: Option<string>
    var lock: Option<Lock>
    var blocked: nat
    var calls: map<nat, Call>
    var next: nat

    ghost function View(): Sky
      reads this
    {
      Sky(latency, now, session, lock, blocked, calls, next)
    }

    constructor (latency: nat)
      ensures View() == Empty(latency)
    {
      this.latency := latency;
      now, session, lock, blocked, calls, next := 0, None, None, 0, map[], 0;
    }

    method Become(c: nat, stage: Stage)
      requires c in calls
      modifies `calls
      ensures View() == SetStage(old(View()), c, stage)
    {
      calls := calls[c := calls[c].(stage := stage)];
    }

    // set lock token EX 40 NX
    method TakeLock(c: nat) returns (won: bool)
      modifies `lock
      ensures won == Held(old(View())).None?
      ensures View() == old(View()).(lock := if won then Some(Lock(c, old(now) + LOCK_TTL)) else old(lock))
    {
      won := lock.None? || lock.value.until <= now;
      if won {
        lock := Some(Lock(c, now + LOCK_TTL));
      }
    }

    // The script that deletes the lock only if it still is the caller's.
    method DropLock(c: nat)
      modifies `lock
      ensures View() == old(View()).(
                lock := if Held(old(View())).Some? && Held(old(View())).value.token == c then None else old(lock))
    {
      if lock.Some? && now < lock.value.until && lock.value.token == c {
        lock := None;
      }
    }

    // One round of the loop starts, unless the time is over or logins are blocked.
    method StartRound(c: nat)
      requires c in calls && calls[c].stage == Loop
      modifies `calls
      ensures View() == Go(old(View()), c, Unavailable)
    {
      if now >= calls[c].start + WAIT {
        Become(c, Ended(None));
      } else {
        calls := calls[c := calls[c].(rounds := calls[c].rounds + 1)];
        Become(c, if now < blocked then Ended(None) else ReadSession);
      }
    }

    method AskForLock(c: nat)
      requires c in calls && calls[c].stage == TryLock
      modifies `lock, `calls
      ensures View() == Go(old(View()), c, Unavailable)
    {
      var won := TakeLock(c);
      if won {
        calls := calls[c := calls[c].(got := now)];
        Become(c, ReadBlocked(now + latency));
      } else {
        Become(c, Sleeping(now + PAUSE));
      }
    }

    method AnswerLogin(c: nat, answer: Answer)
      requires c in calls && calls[c].stage.Post?
      modifies `calls
      ensures View() == Go(old(View()), c, answer)
    {
      var cookie := calls[c].stage.cookie;
      if answer.Accepted? && Truthy(answer.cookie) {
        cookie := answer.cookie;
      }
      if answer.Unavailable? {
        Become(c, Release(None));
      } else if answer.Accepted? && Truthy(cookie) {
        Become(c, Store(cookie.value, now + latency));
      } else {
        Become(c, SetBlocked(now + latency));
      }
    }

    method WithLock(c: nat, answer: Answer)
      requires c in calls
      requires var k := calls[c].stage; k.ReadBlocked? || k.ReadLatest? || k.GetPage? || k.Post?
      modifies `calls
      ensures View() == Go(old(View()), c, answer)
    {
      match calls[c].stage
      case ReadBlocked(_) => Become(c, if now < blocked then Release(None) else ReadLatest(now + latency));
      case ReadLatest(_) =>
        Become(c, if Fresh(session, calls[c].stale) then Release(session) else GetPage(now + latency + HTTP));
      case GetPage(_) => Become(c, if answer.Accepted? then Post(answer.cookie, now + HTTP) else Release(None));
      case Post(_, _) => AnswerLogin(c, answer);
    }

    method Finish(c: nat)
      requires c in calls
      requires var k := calls[c].stage; k.Store? || k.SetBlocked? || k.DropSession? || k.Release?
      modifies `session, `blocked, `lock, `calls
      ensures View() == Go(old(View()), c, Unavailable)
    {
      match calls[c].stage
      case Store(value, _) =>
        session := Some(value);
        Become(c, Release(session));
      case SetBlocked(_) =>
        blocked := now + BLOCK_TTL;
        Become(c, DropSession);
      case DropSession =>
        session := None;
        Become(c, Release(None));
      case Release(result) =>
        DropLock(c);
        Become(c, Ended(result));
    }

    /** The call goes on to its next await. */
    method Advance(c: nat, answer: Answer)
      requires c in calls
      modifies this
      ensures View() == Go(old(View()), c, answer)
      ensures forall v | old(calls[c].stage.Post?) && answer.Accepted?
                         && Brings(old(calls[c].stage).cookie, answer.cookie, v) ::
                calls[c].stage == Store(v, old(now) + latency)
    {
      match calls[c].stage
      case Loop => StartRound(c);
      case ReadSession => Become(c, if Fresh(session, calls[c].stale) then Ended(session) else TryLock);
      case TryLock => AskForLock(c);
      case Sleeping(until) => if until <= now { Become(c, Loop); }
      case ReadBlocked(_) => WithLock(c, answer);
      case ReadLatest(_) => WithLock(c, answer);
      case GetPage(_) => WithLock(c, answer);
      case Post(_, _) => WithLock(c, answer);
      case Store(_, _) => Finish(c);
      case SetBlocked(_) => Finish(c);
      case DropSession => Finish(c);
      case Release(_) => Finish(c);
      case Ended(_) => {}
      case Stopped => {}
    }
  }
}
