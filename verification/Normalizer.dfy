/** The usage normaliser: what providers report, brought to one form. JavaScript numbers are exact reals
    here, and instants are milliseconds. */
module Normalizer {
  import opened Tables
  import opened Sorting

  const MB := 1048576.0
  const GB := 1073741824.0
  const DAY := 86400000

  datatype State = NotActivated | Active | Expired | Depleted

  datatype Day = Day(date: string, used: real)

  // What a provider's answer has been brought to before `finish`; None stands for null.
  datatype Draft = Draft(
    activated: bool, unlimited: bool, total: Option<real>, used: real,
    activatedAt: Option<int>, expiresAt: Option<int>, totalDays: int,
    remainingDays: Option<int>, state: Option<State>, daily: seq<Day>,
    dailyQuota: Option<real>, today: Option<real>)

  datatype Balance = Balance(
    state: State, unlimited: bool, total: Option<real>, used: real, remaining: Option<real>,
    activatedAt: Option<int>, expiresAt: Option<int>, totalDays: int, remainingDays: Option<int>,
    daily: seq<Day>, dailyQuota: Option<real>, today: Option<real>)

  // Why there is no balance: the provider reported a failure, or gave no valid counter, or no plan, or
  // answered for another SIM.
  datatype Refusal = ProviderFailed | NoCounter | NoPlan | OtherSim

  // ---------- numbers ----------

  // Math.round(n * 100) / 100
  function Round(n: real): real {
    (n * 100.0 + 0.5).Floor as real / 100.0
  }

  function Max(a: real, b: real): (m: real)
    ensures m >= a && m >= b && (m == a || m == b)
  {
    if a >= b then a else b
  }

  // Math.ceil of a quotient.
  function CeilDays(ms: int): int {
    -((-ms) / DAY)
  }

  function OrZero(n: Option<real>): real {
    match n
    case None => 0.0
    case Some(value) => value
  }

  // Bytes as rounded megabytes.
  function Bytes(n: Option<real>): real {
    Round(OrZero(n) / MB)
  }

  predicate Unlimited(gb: real) {
    gb < 0.0 || gb >= 999.0
  }

  // ---------- daily rows, sorted by date; `rank` is the order localeCompare gives to dates ----------

  function Dated(days: seq<Day>): seq<Day> {
    if days == [] then []
    else
      var rest := Dated(days[..|days| - 1]);
      if days[|days| - 1].date != "" then rest + [days[|days| - 1]] else rest
  }

  function ByDate(rank: string -> int): (Day, Day) -> bool {
    (a: Day, b: Day) => rank(a.date) <= rank(b.date)
  }

  // ---------- finish ----------

  function Finish(u: Draft, now: int, rank: string -> int): Balance {
    var total := if u.unlimited || u.total.None? then None else Some(Round(u.total.value));
    var used := Round(Max(0.0, u.used));
    var remaining := if total.None? then None else Some(Round(Max(0.0, total.value - used)));
    var days :=
      if u.remainingDays.Some? then u.remainingDays
      else if u.activated && u.expiresAt.Some? then
        Some(if CeilDays(u.expiresAt.value - now) > 0 then CeilDays(u.expiresAt.value - now) else 0)
      else None;
    var state :=
      if u.state.Some? then u.state.value
      else if !u.activated then NotActivated
      else if u.expiresAt.Some? && u.expiresAt.value <= now then Expired
      else if remaining.Some? && remaining.value <= 0.0 then Depleted
      else Active;
    Balance(
      state, u.unlimited, total, used, remaining, u.activatedAt, u.expiresAt, u.totalDays,
      if u.activated then days else None, Sort(Dated(u.daily), ByDate(rank)), u.dailyQuota, u.today)
  }

  // ---------- rounding ----------

  function Hundredths(k: int): real {
    k as real / 100.0
  }

  // A whole number of hundredths.
  ghost predicate Cents(n: real) {
    exists k: int :: n == Hundredths(k)
  }

  lemma RoundIsCents(n: real)
    ensures Cents(Round(n))
    ensures n - 0.005 < Round(n) <= n + 0.005
  {
    assert Round(n) == Hundredths((n * 100.0 + 0.5).Floor);
  }

  lemma RoundOfCents(n: real)
    requires Cents(n)
    ensures Round(n) == n
  {
    var k: int :| n == Hundredths(k);
    assert n * 100.0 == k as real;
    assert (k as real + 0.5).Floor == k;
  }

  lemma DifferenceOfCents(a: real, b: real)
    requires Cents(a) && Cents(b)
    ensures Cents(Max(0.0, a - b))
  {
    var k: int :| a == Hundredths(k);
    var m: int :| b == Hundredths(m);
    assert a - b == Hundredths(k - m);
    assert 0.0 == Hundredths(0);
  }

  /** Used plus remaining is the total, or what was used where that is more; an unlimited plan has neither
      total nor remaining. All three are whole hundredths, and the used amount is never negative. */
  lemma UsedPlusRemaining(u: Draft, now: int, rank: string -> int)
    ensures var f := Finish(u, now, rank);
            && (f.total.Some? <==> f.remaining.Some?)
            && (f.total.Some? <==> !u.unlimited && u.total.Some?)
            && (f.total.Some? ==> f.used + f.remaining.value == Max(f.total.value, f.used))
            && f.used >= 0.0
  {
    var f := Finish(u, now, rank);
    RoundIsCents(Max(0.0, u.used));
    if f.total.Some? {
      RoundIsCents(u.total.value);
      DifferenceOfCents(f.total.value, f.used);
      RoundOfCents(Max(0.0, f.total.value - f.used));
    }
  }

  // The days that have begun between now and the expiry, none once it is over.
  predicate DaysUntil(days: Option<int>, expiry: int, now: int) {
    && days.Some?
    && (expiry <= now ==> days.value == 0)
    && (expiry > now ==> (days.value - 1) * 86400000 < expiry - now <= days.value * 86400000)
  }

  /** An activated plan whose provider does not say how many days are left, which is how JoyTel and Mobiline answer,
      shows the days that have begun until its expiry, when that is known; one that is not activated shows none. So
      there are no days left exactly when the plan is expired. */
  lemma DaysLeft(u: Draft, now: int, rank: string -> int)
    requires u.remainingDays.None?
    ensures var f := Finish(u, now, rank);
            && (u.activated && u.expiresAt.Some? ==> DaysUntil(f.remainingDays, u.expiresAt.value, now))
            && (!u.activated || u.expiresAt.None? ==> f.remainingDays.None?)
            && (u.activated && u.expiresAt.Some? && u.state.None? ==>
                  (f.remainingDays == Some(0) <==> f.state == Expired))
  {
    if u.expiresAt.Some? {
      CeilIsPositive(u.expiresAt.value - now);
    }
  }

  lemma CeilIsPositive(ms: int)
    ensures CeilDays(ms) > 0 <==> ms > 0
    ensures (CeilDays(ms) - 1) * 86400000 < ms <= CeilDays(ms) * 86400000
  {
  }

  /** The state, unless the provider gives one: not activated; or expired by the clock; or nothing left; or
      else active. */
  lemma StateMeans(u: Draft, now: int, rank: string -> int)
    requires u.state.None?
    ensures var f := Finish(u, now, rank);
            var over := u.expiresAt.Some? && u.expiresAt.value <= now;
            && (f.state == NotActivated <==> !u.activated)
            && (f.state == Expired <==> u.activated && over)
            && (f.state == Depleted <==> u.activated && !over && f.remaining == Some(0.0))
            && (f.state == Active <==> u.activated && !over && (f.remaining.Some? ==> f.remaining.value > 0.0))
  {
    var f := Finish(u, now, rank);
    UsedPlusRemaining(u, now, rank);
    if f.remaining.Some? {
      NotNegative(Max(0.0, f.total.value - f.used));
    }
  }

  lemma NotNegative(n: real)
    requires n >= 0.0
    ensures Round(n) >= 0.0
  {
    assert (n * 100.0 + 0.5).Floor >= 0;
  }

  // Rounding to hundredths moves a number by 0.005 at most.
  predicate Near(a: real, b: real) {
    -0.005 <= a - b <= 0.005
  }

  // ---------- the daily rows ----------

  function Count(days: seq<Day>, day: Day): nat {
    multiset(days)[day]
  }

  lemma CountOneMore(days: seq<Day>, last: Day, day: Day)
    ensures Count(days + [last], day) == Count(days, day) + if last == day then 1 else 0
  {
    assert multiset(days + [last]) == multiset(days) + multiset{last};
  }

  lemma {:induction false} DatedMeans(days: seq<Day>, day: Day)
    ensures Count(Dated(days), day) == if day.date != "" then Count(days, day) else 0
  {
    if days != [] {
      var init, last := days[..|days| - 1], days[|days| - 1];
      DatedMeans(init, day);
      assert days == init + [last];
      CountOneMore(init, last, day);
      CountOneMore(Dated(init), last, day);
    }
  }

  lemma DailyIsSortedPermutation(u: Draft, now: int, rank: string -> int, day: Day)
    ensures var daily := Finish(u, now, rank).daily;
            && (forall i, j | 0 <= i < j < |daily| :: rank(daily[i].date) <= rank(daily[j].date))
            && Count(daily, day) == if day.date != "" then Count(u.daily, day) else 0
  {
    SortSorts(Dated(u.daily), day, ByDate(rank));
    DatedMeans(u.daily, day);
  }

  // ---------- rounded days against the true sum ----------

  // A provider's row: a date as text, and a counter or null.
  datatype Counter = Counter(date: string, amount: Option<real>)

  function DaysOf(rows: seq<Counter>, unit: real): (days: seq<Day>)
    requires unit > 0.0
    ensures |days| == |rows|
  {
    if rows == [] then []
    else DaysOf(rows[..|rows| - 1], unit)
         + [Day(rows[|rows| - 1].date, Round(OrZero(rows[|rows| - 1].amount) / unit))]
  }

  function SumOfDays(days: seq<Day>): real {
    if days == [] then 0.0 else SumOfDays(days[..|days| - 1]) + days[|days| - 1].used
  }

  function SumOfCounters(rows: seq<Counter>): real {
    if rows == [] then 0.0 else SumOfCounters(rows[..|rows| - 1]) + OrZero(rows[|rows| - 1].amount)
  }

  // One more row that is off by 0.005 at most.
  lemma OneMoreIsClose(sum: real, exact: real, used: real, part: real, n: nat)
    requires -0.005 * n as real <= sum - exact <= 0.005 * n as real && part - 0.005 <= used <= part + 0.005
    ensures -0.005 * (n + 1) as real <= (sum + used) - (exact + part) <= 0.005 * (n + 1) as real
  {
  }

  lemma Divide(a: real, b: real, unit: real)
    requires unit > 0.0
    ensures (a + b) / unit == a / unit + b / unit
  {
  }

  lemma SumsOfOneMore(rows: seq<Counter>, unit: real)
    requires unit > 0.0 && rows != []
    ensures var init, last := rows[..|rows| - 1], OrZero(rows[|rows| - 1].amount);
            && SumOfDays(DaysOf(rows, unit)) == SumOfDays(DaysOf(init, unit)) + Round(last / unit)
            && SumOfCounters(rows) / unit == SumOfCounters(init) / unit + last / unit
  {
    var init, last := rows[..|rows| - 1], rows[|rows| - 1];
    SumOfOneMore(DaysOf(init, unit), Day(last.date, Round(OrZero(last.amount) / unit)));
    Divide(SumOfCounters(init), OrZero(last.amount), unit);
  }

  lemma SumOfOneMore(days: seq<Day>, day: Day)
    ensures SumOfDays(days + [day]) == SumOfDays(days) + day.used
  {
    assert (days + [day])[..|days|] == days;
  }

  /** Rounding each day to hundredths moves the sum by at most 0.005 for each row. */
  lemma {:induction false} RoundedDaysAreClose(rows: seq<Counter>, unit: real)
    requires unit > 0.0
    ensures var error := SumOfDays(DaysOf(rows, unit)) - SumOfCounters(rows) / unit;
            -0.005 * |rows| as real <= error <= 0.005 * |rows| as real
  {
    if rows != [] {
      var init, last := rows[..|rows| - 1], OrZero(rows[|rows| - 1].amount);
      RoundedDaysAreClose(init, unit);
      RoundIsCents(last / unit);
      SumsOfOneMore(rows, unit);
      OneMoreIsClose(
        SumOfDays(DaysOf(init, unit)), SumOfCounters(init) / unit, Round(last / unit), last / unit, |init|);
    }
  }

  // The counters that have a date.
  function DatedRows(rows: seq<Counter>): seq<Counter> {
    if rows == [] then []
    else
      var rest := DatedRows(rows[..|rows| - 1]);
      if rows[|rows| - 1].date != "" then rest + [rows[|rows| - 1]] else rest
  }

  lemma {:induction false} DatedDays(rows: seq<Counter>, unit: real)
    requires unit > 0.0
    ensures Dated(DaysOf(rows, unit)) == DaysOf(DatedRows(rows), unit)
  {
    if rows != [] {
      var init, last := rows[..|rows| - 1], rows[|rows| - 1];
      var days, day := DaysOf(init, unit), Day(last.date, Round(OrZero(last.amount) / unit));
      DatedDays(init, unit);
      assert (days + [day])[..|days|] == days;
      assert (DatedRows(init) + [last])[..|DatedRows(init)|] == DatedRows(init);
    }
  }

  lemma {:induction false} InsertSum(days: seq<Day>, day: Day, le: (Day, Day) -> bool)
    ensures SumOfDays(Insert(days, day, le)) == SumOfDays(days) + day.used
    ensures |Insert(days, day, le)| == |days| + 1
  {
    SumOfOneMore(days, day);
    if days != [] && !le(days[|days| - 1], day) {
      InsertSum(days[..|days| - 1], day, le);
      SumOfOneMore(Insert(days[..|days| - 1], day, le), days[|days| - 1]);
    }
  }

  lemma {:induction false} SortSum(days: seq<Day>, le: (Day, Day) -> bool)
    ensures SumOfDays(Sort(days, le)) == SumOfDays(days) && |Sort(days, le)| == |days|
  {
    if days != [] {
      SortSum(days[..|days| - 1], le);
      InsertSum(Sort(days[..|days| - 1], le), days[|days| - 1], le);
    }
  }

  function UsedOn(days: seq<Day>, date: string): real {
    if days == [] then 0.0
    else UsedOn(days[..|days| - 1], date) + if days[|days| - 1].date == date then days[|days| - 1].used else 0.0
  }

  // The counters of one date.
  function RowsOn(rows: seq<Counter>, date: string): seq<Counter> {
    if rows == [] then []
    else
      var rest := RowsOn(rows[..|rows| - 1], date);
      if rows[|rows| - 1].date == date then rest + [rows[|rows| - 1]] else rest
  }

  lemma UsedOnOneMore(days: seq<Day>, day: Day, date: string)
    ensures UsedOn(days + [day], date) == UsedOn(days, date) + if day.date == date then day.used else 0.0
  {
    assert (days + [day])[..|days|] == days;
  }

  lemma DaysOfOneMore(rows: seq<Counter>, row: Counter, unit: real)
    requires unit > 0.0
    ensures DaysOf(rows + [row], unit) == DaysOf(rows, unit) + [Day(row.date, Round(OrZero(row.amount) / unit))]
  {
    assert (rows + [row])[..|rows|] == rows;
  }

  lemma {:induction false} UsedOnIsSum(rows: seq<Counter>, unit: real, date: string)
    requires unit > 0.0
    ensures UsedOn(DaysOf(rows, unit), date) == SumOfDays(DaysOf(RowsOn(rows, date), unit))
  {
    if rows != [] {
      var init, last := rows[..|rows| - 1], rows[|rows| - 1];
      var days, day := DaysOf(init, unit), Day(last.date, Round(OrZero(last.amount) / unit));
      UsedOnIsSum(init, unit, date);
      UsedOnOneMore(days, day, date);
      DaysOfOneMore(RowsOn(init, date), last, unit);
      SumOfOneMore(DaysOf(RowsOn(init, date), unit), day);
    }
  }

  // Within 0.005 for each row, what the counters of the date add up to.
  predicate UsedNear(used: real, rows: seq<Counter>, unit: real)
    requires unit > 0.0
  {
    var error := used - SumOfCounters(rows) / unit;
    -0.005 * |rows| as real <= error <= 0.005 * |rows| as real
  }

  lemma UsedOnIsClose(rows: seq<Counter>, unit: real, date: string)
    requires unit > 0.0
    ensures UsedNear(UsedOn(DaysOf(rows, unit), date), RowsOn(rows, date), unit)
  {
    UsedOnIsSum(rows, unit, date);
    RoundedDaysAreClose(RowsOn(rows, date), unit);
  }

  // How many days shown have this date.
  function ShownOn(days: seq<Day>, date: string): nat {
    if days == [] then 0
    else ShownOn(days[..|days| - 1], date) + if days[|days| - 1].date == date then 1 else 0
  }

  lemma ShownOnOneMore(days: seq<Day>, day: Day, date: string)
    ensures ShownOn(days + [day], date) == ShownOn(days, date) + if day.date == date then 1 else 0
  {
    assert (days + [day])[..|days|] == days;
  }

  lemma {:induction false} ShownAsRows(rows: seq<Counter>, unit: real, date: string)
    requires unit > 0.0
    ensures ShownOn(DaysOf(rows, unit), date) == |RowsOn(rows, date)|
  {
    if rows != [] {
      var init, last := rows[..|rows| - 1], rows[|rows| - 1];
      ShownAsRows(init, unit, date);
      ShownOnOneMore(DaysOf(init, unit), Day(last.date, Round(OrZero(last.amount) / unit)), date);
    }
  }

  // Sorting, and leaving out what has no date, changes nothing for a date.
  lemma {:induction false} InsertOn(days: seq<Day>, day: Day, le: (Day, Day) -> bool, date: string)
    ensures UsedOn(Insert(days, day, le), date) == UsedOn(days, date) + if day.date == date then day.used else 0.0
    ensures ShownOn(Insert(days, day, le), date) == ShownOn(days, date) + if day.date == date then 1 else 0
  {
    UsedOnOneMore(days, day, date);
    ShownOnOneMore(days, day, date);
    if days != [] && !le(days[|days| - 1], day) {
      var init, last := days[..|days| - 1], days[|days| - 1];
      InsertOn(init, day, le, date);
      UsedOnOneMore(Insert(init, day, le), last, date);
      ShownOnOneMore(Insert(init, day, le), last, date);
    }
  }

  lemma {:induction false} SortOn(days: seq<Day>, le: (Day, Day) -> bool, date: string)
    ensures UsedOn(Sort(days, le), date) == UsedOn(days, date) && ShownOn(Sort(days, le), date) == ShownOn(days, date)
  {
    if days != [] {
      SortOn(days[..|days| - 1], le, date);
      InsertOn(Sort(days[..|days| - 1], le), days[|days| - 1], le, date);
    }
  }

  lemma {:induction false} DatedOn(days: seq<Day>, date: string)
    requires date != ""
    ensures UsedOn(Dated(days), date) == UsedOn(days, date) && ShownOn(Dated(days), date) == ShownOn(days, date)
  {
    if days != [] {
      var init, last := days[..|days| - 1], days[|days| - 1];
      DatedOn(init, date);
      if last.date != "" {
        assert Dated(days) == Dated(init) + [last];
        UsedOnOneMore(Dated(init), last, date);
        ShownOnOneMore(Dated(init), last, date);
      } else {
        assert Dated(days) == Dated(init);
      }
    }
  }

  // For each date, as many days are shown as it has counters, and they add up to them within 0.005 for each.
  ghost predicate EachDateOk(daily: seq<Day>, rows: seq<Counter>, unit: real)
    requires unit > 0.0
  {
    forall date | date != "" ::
      ShownOn(daily, date) == |RowsOn(rows, date)| && UsedNear(UsedOn(daily, date), RowsOn(rows, date), unit)
  }

  lemma EachDateIsOk(rows: seq<Counter>, unit: real, le: (Day, Day) -> bool)
    requires unit > 0.0
    ensures EachDateOk(Sort(Dated(DaysOf(rows, unit)), le), rows, unit)
  {
    forall date | date != ""
      ensures ShownOn(Sort(Dated(DaysOf(rows, unit)), le), date) == |RowsOn(rows, date)|
      ensures UsedNear(UsedOn(Sort(Dated(DaysOf(rows, unit)), le), date), RowsOn(rows, date), unit)
    {
      SortOn(Dated(DaysOf(rows, unit)), le, date);
      DatedOn(DaysOf(rows, unit), date);
      ShownAsRows(rows, unit, date);
      UsedOnIsClose(rows, unit, date);
    }
  }

  // The days shown, in order of date, add up to the dated counters within 0.005 for each, in all and for each date.
  ghost predicate DailyOk(daily: seq<Day>, rows: seq<Counter>, unit: real, rank: string -> int)
    requires unit > 0.0
  {
    && |daily| == |DatedRows(rows)|
    && (forall i, j | 0 <= i < j < |daily| :: rank(daily[i].date) <= rank(daily[j].date))
    && UsedNear(SumOfDays(daily), DatedRows(rows), unit) && EachDateOk(daily, rows, unit)
  }

  lemma DailyIsClose(u: Draft, now: int, rank: string -> int, rows: seq<Counter>, unit: real)
    requires unit > 0.0 && u.daily == DaysOf(rows, unit)
    ensures DailyOk(Finish(u, now, rank).daily, rows, unit, rank)
  {
    DatedDays(rows, unit);
    RoundedDaysAreClose(DatedRows(rows), unit);
    SortSum(Dated(u.daily), ByDate(rank));
    SortSorts(Dated(u.daily), Day("", 0.0), ByDate(rank));
    EachDateIsOk(rows, unit, ByDate(rank));
  }

  // Total, used and remaining of a plan that reported these amounts.
  predicate AmountsOk(f: Balance, unlimited: bool, total: real, used: real) {
    && f.unlimited == unlimited && Near(f.used, used) && f.used >= 0.0
    && (if unlimited then f.total.None? && f.remaining.None?
        else f.total.Some? && Near(f.total.value, total)
             && f.remaining.Some? && f.used + f.remaining.value == Max(f.total.value, f.used))
  }

  // A negative counter counts as nothing used.
  lemma AmountsAreOk(u: Draft, now: int, rank: string -> int, used: real)
    requires u.total.Some? && (u.used == used || u.used == Round(used))
    ensures AmountsOk(Finish(u, now, rank), u.unlimited, u.total.value, Max(0.0, used))
  {
    UsedPlusRemaining(u, now, rank);
    RoundIsCents(u.total.value);
    RoundIsCents(Max(0.0, used));
    RoundIsCents(used);
    assert used < 0.0 ==> (used * 100.0 + 0.5).Floor <= 0;
    assert 0.0 == Hundredths(0);
    assert Cents(Max(0.0, Round(used)));
    RoundOfCents(Max(0.0, Round(used)));
    if used >= 0.0 {
      NotNegative(used);
    }
  }

  // ---------- JoyTel ----------

  // An instant given as a number: 0 and what Date cannot hold count as none.
  function Instant(ms: Option<int>): Option<int> {
    match ms
    case None => None
    case Some(n) => if n == 0 || n > 8640000000000000 || n < -8640000000000000 then None else ms
  }

  function Positive(ms: Option<int>): Option<int> {
    match ms
    case None => None
    case Some(n) => if n > 0 then Instant(ms) else None
  }

  // Math.round of a number of days.
  function RoundDays(ms: int): int {
    (2 * ms + DAY) / (2 * DAY)
  }

  datatype Plan = Plan(gb: real, days: int)

  datatype JoyAnswer = JoyAnswer(
    accepted: bool, data: bool, total: Option<real>, effTime: Option<int>, expTime: Option<int>, days: seq<Counter>)

  function JoyDraft(a: JoyAnswer, plan: Plan): Draft {
    var start, end := Positive(a.effTime), Positive(a.expTime);
    Draft(
      start.Some?, Unlimited(plan.gb), Some(plan.gb * 1024.0), Bytes(a.total), start, end,
      if start.Some? && end.Some? then RoundDays(end.value - start.value) else plan.days,
      None, None, DaysOf(a.days, MB), None, None)
  }

  function NormalizeJoytel(a: JoyAnswer, plan: Plan, now: int, rank: string -> int): Result<Balance, Refusal> {
    if !a.accepted then Err(ProviderFailed)
    else if !a.data || a.total.None? || a.total.value < 0.0 then Err(NoCounter)
    else Ok(Finish(JoyDraft(a, plan), now, rank))
  }

  /** A JoyTel balance is refused exactly without a valid counter. Its amounts are those of tariff and
      counter, and its days are the dated rows in order. */
  lemma JoytelAmounts(a: JoyAnswer, plan: Plan, now: int, rank: string -> int)
    ensures var r := NormalizeJoytel(a, plan, now, rank);
            && (r.Ok? <==> a.accepted && a.data && a.total.Some? && a.total.value >= 0.0)
            && (r.Err? ==> (r.error == ProviderFailed <==> !a.accepted))
            && (r.Ok? ==>
                  && AmountsOk(
                       r.value, plan.gb < 0.0 || plan.gb >= 999.0, plan.gb * 1024.0,
                       Max(0.0, a.total.value / 1048576.0))
                  && DailyOk(r.value.daily, a.days, 1048576.0, rank))
  {
    if NormalizeJoytel(a, plan, now, rank).Ok? {
      AmountsAreOk(JoyDraft(a, plan), now, rank, a.total.value / MB);
      DailyIsClose(JoyDraft(a, plan), now, rank, a.days, MB);
    }
  }

  // A usable instant of JoyTel's: positive, and one that a date can hold.
  predicate Dates(time: Option<int>, ms: Option<int>) {
    if time.Some? && 0 < time.value <= 8640000000000000 then ms == time else ms.None?
  }

  // The nearest number of days, halves upwards.
  predicate NearestDays(ms: int, days: int) {
    -86400000 <= 2 * (ms - days * 86400000) < 86400000
  }

  lemma RoundDaysIsNearest(ms: int)
    ensures NearestDays(ms, RoundDays(ms))
  {
  }

  /** A JoyTel plan is activated when JoyTel gives a usable start; with a usable end as well its length is
      the nearest number of days between them, else that of the tariff; and it shows the days that have begun until
      its expiry, none exactly when it is expired. */
  lemma JoytelDates(a: JoyAnswer, plan: Plan, now: int, rank: string -> int)
    requires NormalizeJoytel(a, plan, now, rank).Ok?
    ensures var f := NormalizeJoytel(a, plan, now, rank).value;
            && Dates(a.effTime, f.activatedAt) && Dates(a.expTime, f.expiresAt)
            && (f.state == NotActivated <==> f.activatedAt.None?)
            && (if f.activatedAt.Some? && f.expiresAt.Some?
                then NearestDays(f.expiresAt.value - f.activatedAt.value, f.totalDays) else f.totalDays == plan.days)
            && (if f.activatedAt.Some? && f.expiresAt.Some?
                then DaysUntil(f.remainingDays, f.expiresAt.value, now)
                     && (f.remainingDays == Some(0) <==> f.state == Expired)
                else f.remainingDays.None?)
  {
    var u := JoyDraft(a, plan);
    StateMeans(u, now, rank);
    DaysLeft(u, now, rank);
    if u.activatedAt.Some? && u.expiresAt.Some? {
      RoundDaysIsNearest(u.expiresAt.value - u.activatedAt.value);
    }
  }

  // ---------- BillionConnect ----------

  datatype BcPlan = BcPlan(
    subOrder: string, inUse: bool, used: Option<real>, total: Option<real>, start: Option<int>, end: Option<int>,
    totalDays: Option<int>, remainingDays: Option<int>)

  // Array.prototype.find
  function Find(plans: seq<BcPlan>, wanted: BcPlan -> bool): Option<BcPlan> {
    if plans == [] then None else if wanted(plans[0]) then Some(plans[0]) else Find(plans[1..], wanted)
  }

  // `p` is the first plan that is wanted.
  ghost predicate IsFirst(plans: seq<BcPlan>, wanted: BcPlan -> bool, p: BcPlan) {
    exists k | 0 <= k < |plans| :: plans[k] == p && wanted(p) && forall j | 0 <= j < k :: !wanted(plans[j])
  }

  lemma {:induction false} FindMeans(plans: seq<BcPlan>, wanted: BcPlan -> bool)
    ensures Find(plans, wanted).None? <==> forall p | p in plans :: !wanted(p)
    ensures Find(plans, wanted).Some? ==> IsFirst(plans, wanted, Find(plans, wanted).value)
  {
    if plans != [] {
      FindMeans(plans[1..], wanted);
      assert plans == [plans[0]] + plans[1..];
      if wanted(plans[0]) {
        var k := 0;
        assert plans[k] == plans[0];
      } else if Find(plans[1..], wanted).Some? {
        FirstOfRest(plans, wanted, Find(plans[1..], wanted).value);
      }
    }
  }

  lemma FirstOfRest(plans: seq<BcPlan>, wanted: BcPlan -> bool, p: BcPlan)
    requires plans != [] && !wanted(plans[0]) && IsFirst(plans[1..], wanted, p)
    ensures IsFirst(plans, wanted, p)
  {
    var k :| 0 <= k < |plans| - 1 && plans[1..][k] == p && forall j | 0 <= j < k :: !wanted(plans[1..][j]);
    assert plans[k + 1] == p;
    forall j | 0 <= j < k + 1 ensures !wanted(plans[j]) {
      assert j > 0 ==> plans[j] == plans[1..][j - 1];
    }
  }

  function IsSubOrder(id: Option<string>): BcPlan -> bool {
    (p: BcPlan) => id.Some? && id.value != "" && p.subOrder == id.value
  }

  function IsInUse(): BcPlan -> bool {
    (p: BcPlan) => p.inUse
  }

  function SelectBcPlan(accepted: bool, plans: seq<BcPlan>, id: Option<string>): Result<BcPlan, Refusal> {
    if !accepted then Err(ProviderFailed)
    else if Find(plans, IsSubOrder(id)).Some? then Ok(Find(plans, IsSubOrder(id)).value)
    else if Find(plans, IsInUse()).Some? then Ok(Find(plans, IsInUse()).value)
    else if plans != [] then Ok(plans[0])
    else Err(NoPlan)
  }

  /** The first plan of the SIM's own sub-order when there is one, else the first one in use, else the first
      plan; refused only without plans. */
  lemma SelectedPlan(accepted: bool, plans: seq<BcPlan>, id: Option<string>)
    ensures var r := SelectBcPlan(accepted, plans, id);
            && (r.Ok? <==> accepted && plans != [])
            && (r.Err? ==> r.error == if accepted then NoPlan else ProviderFailed)
            && (r.Ok? ==>
                  if id.Some? && id.value != "" && exists p | p in plans :: p.subOrder == id.value then
                    exists k | 0 <= k < |plans| ::
                      plans[k] == r.value && plans[k].subOrder == id.value
                      && forall j | 0 <= j < k :: plans[j].subOrder != id.value
                  else if exists p | p in plans :: p.inUse then
                    exists k | 0 <= k < |plans| ::
                      plans[k] == r.value && plans[k].inUse && forall j | 0 <= j < k :: !plans[j].inUse
                  else r.value == plans[0])
  {
    FindMeans(plans, IsSubOrder(id));
    FindMeans(plans, IsInUse());
    if id.Some? && id.value != "" && exists p | p in plans :: p.subOrder == id.value {
      var p :| p in plans && p.subOrder == id.value;
      assert IsSubOrder(id)(p);
    }
  }

  function BcDraft(p: BcPlan, rows: seq<Counter>, plan: Plan, now: int): Draft {
    var state :=
      if !p.inUse && p.start.Some? then
        Some(if p.end.Some? && p.end.value > now then Depleted else Expired)
      else None;
    var total := match p.total case None => plan.gb * 1024.0 case Some(kb) => kb / 1024.0;
    var unlimited := match p.total case None => Unlimited(plan.gb) case Some(kb) => kb < 0.0;
    var days := match p.totalDays case None => plan.days case Some(n) => n;
    var left := match p.remainingDays case None => None case Some(n) => Some(if n > 0 then n else 0);
    Draft(
      p.inUse || p.start.Some?, unlimited, Some(total), Max(SumOfCounters(rows), OrZero(p.used)) / 1024.0,
      p.start, p.end, days, left, state, DaysOf(rows, 1024.0), None, None)
  }

  // `rows` are the daily rows of the plan's usage, when there is one.
  function NormalizeBc(p: BcPlan, rows: Option<seq<Counter>>, plan: Plan, now: int, rank: string -> int)
    : Result<Balance, Refusal>
  {
    if p.used.None? && rows.None? then Err(NoCounter)
    else
      var daily := match rows case None => [] case Some(list) => list;
      Ok(Finish(BcDraft(p, daily, plan, now), now, rank))
  }

  // The larger of BillionConnect's two counters, in kilobytes.
  function BcUsed(p: BcPlan, rows: seq<Counter>): real {
    Max(SumOfCounters(rows), OrZero(p.used))
  }

  /** A BillionConnect balance is refused exactly without any counter. Its amounts are those of the plan and
      of the larger counter, its days the dated rows in order. */
  lemma BcAmounts(p: BcPlan, rows: Option<seq<Counter>>, plan: Plan, now: int, rank: string -> int)
    ensures var r := NormalizeBc(p, rows, plan, now, rank);
            var list := if rows.Some? then rows.value else [];
            var used := Max(0.0, BcUsed(p, list) / 1024.0);
            && (r.Ok? <==> p.used.Some? || rows.Some?)
            && (r.Ok? ==>
                  && (if p.total.Some? then AmountsOk(r.value, p.total.value < 0.0, p.total.value / 1024.0, used)
                      else AmountsOk(r.value, plan.gb < 0.0 || plan.gb >= 999.0, plan.gb * 1024.0, used))
                  && DailyOk(r.value.daily, list, 1024.0, rank))
  {
    var list := match rows case None => [] case Some(list) => list;
    var u := BcDraft(p, list, plan, now);
    AmountsAreOk(u, now, rank, BcUsed(p, list) / 1024.0);
    DailyIsClose(u, now, rank, list, 1024.0);
  }

  // The state of a plan that the provider says is in use: expired by the clock, else used up, else active.
  predicate InUseState(f: Balance, end: Option<int>, now: int) {
    f.state ==
      if end.Some? && end.value <= now then Expired
      else if f.remaining == Some(0.0) then Depleted
      else Active
  }

  /** A plan in use is expired, depleted or active; one that was used and is over is depleted or expired, by
      its end; any other is not activated. The days are those the provider gives, and the tariff's when it
      gives none; so are the days left, which are never negative, and else those that have begun until its end. */
  lemma BcState(p: BcPlan, rows: Option<seq<Counter>>, plan: Plan, now: int, rank: string -> int)
    requires NormalizeBc(p, rows, plan, now, rank).Ok?
    ensures var f := NormalizeBc(p, rows, plan, now, rank).value;
            && (p.inUse ==> InUseState(f, p.end, now))
            && (!p.inUse && p.start.Some? ==> f.state == if p.end.Some? && p.end.value > now then Depleted else Expired)
            && (f.state == NotActivated <==> !p.inUse && p.start.None?)
            && f.activatedAt == p.start && f.expiresAt == p.end
            && f.totalDays == (if p.totalDays.Some? then p.totalDays.value else plan.days)
            && (f.state != NotActivated && p.remainingDays.Some? ==>
                  f.remainingDays == Some(if p.remainingDays.value > 0 then p.remainingDays.value else 0))
            && (f.state != NotActivated && p.remainingDays.None? ==>
                  if p.end.Some? then DaysUntil(f.remainingDays, p.end.value, now) else f.remainingDays.None?)
            && (f.state == NotActivated ==> f.remainingDays.None?)
  {
    var list := match rows case None => [] case Some(list) => list;
    var u := BcDraft(p, list, plan, now);
    if u.state.None? {
      StateMeans(u, now, rank);
    }
    if u.remainingDays.None? {
      DaysLeft(u, now, rank);
    }
  }

  // ---------- Mobiline ----------

  datatype MobAnswer = MobAnswer(
    sameIccid: bool, rows: Option<seq<Counter>>, quota: Option<real>, remain: Option<real>, usedQuota: Option<real>,
    planQuota: Option<real>, activated: bool, start: Option<int>, end: Option<int>, planDays: int,
    dayPass: bool, dailyQuota: Option<real>)

  predicate Given(n: Option<real>) {
    n.Some? && n.value >= 0.0
  }

  // The plan's size in gigabytes, and the bytes used.
  function MobGb(a: MobAnswer, plan: Plan): real {
    if Given(a.quota) && Given(a.remain) then a.quota.value / GB
    else match a.planQuota case None => plan.gb case Some(n) => n
  }

  function MobUsed(a: MobAnswer, rows: seq<Counter>): real {
    if Given(a.quota) && Given(a.remain) && Given(a.usedQuota) then a.usedQuota.value else SumOfCounters(rows)
  }

  function MobDraft(a: MobAnswer, rows: seq<Counter>, plan: Plan, today: string): Draft {
    var daily := DaysOf(rows, MB);
    Draft(
      a.activated || a.start.Some?, Unlimited(MobGb(a, plan)), Some(MobGb(a, plan) * 1024.0),
      Bytes(Some(MobUsed(a, rows))), a.start, a.end, if a.planDays > 0 then a.planDays else plan.days,
      None, None, daily,
      if a.dayPass && Given(a.dailyQuota) then Some(Bytes(a.dailyQuota)) else None,
      if a.dayPass then Some(UsedOn(daily, today)) else None)
  }

  function NormalizeMobiline(a: MobAnswer, plan: Plan, today: string, now: int, rank: string -> int)
    : Result<Balance, Refusal>
  {
    var counted := Given(a.quota) && Given(a.remain) && Given(a.usedQuota);
    if !a.sameIccid then Err(OtherSim)
    else if !counted && a.rows.None? then Err(NoCounter)
    else
      var rows := match a.rows case None => [] case Some(list) => list;
      Ok(Finish(MobDraft(a, rows, plan, today), now, rank))
  }

  /** A Mobiline balance is refused exactly for another ICCID or without any counter. Its amounts are those
      of the quota, or else of plan and rows, and its days are the dated rows in order. */
  lemma MobilineAmounts(a: MobAnswer, plan: Plan, today: string, now: int, rank: string -> int)
    ensures var r := NormalizeMobiline(a, plan, today, now, rank);
            var list := if a.rows.Some? then a.rows.value else [];
            var quota := a.quota.Some? && a.quota.value >= 0.0 && a.remain.Some? && a.remain.value >= 0.0;
            var counted := quota && a.usedQuota.Some? && a.usedQuota.value >= 0.0;
            var gb := if quota then a.quota.value / 1073741824.0
                      else if a.planQuota.Some? then a.planQuota.value else plan.gb;
            var used := if counted then a.usedQuota.value else SumOfCounters(list);
            && (r.Ok? <==> a.sameIccid && (counted || a.rows.Some?))
            && (r.Err? ==> (r.error == OtherSim <==> !a.sameIccid))
            && (r.Ok? ==>
                  && AmountsOk(r.value, gb < 0.0 || gb >= 999.0, gb * 1024.0, Max(0.0, used / 1048576.0))
                  && DailyOk(r.value.daily, list, 1048576.0, rank))
  {
    var list := match a.rows case None => [] case Some(list) => list;
    var u := MobDraft(a, list, plan, today);
    AmountsAreOk(u, now, rank, MobUsed(a, list) / MB);
    DailyIsClose(u, now, rank, list, MB);
  }

  /** A day pass, and only that, shows what the rows of today add up to, and its quota when it is given; the
      days are those of the plan, and the tariff's when it gives none; an activated plan with a known expiry shows
      the days that have begun until then, none exactly when it is expired. */
  lemma MobilineDays(a: MobAnswer, plan: Plan, today: string, now: int, rank: string -> int)
    requires NormalizeMobiline(a, plan, today, now, rank).Ok?
    ensures var f := NormalizeMobiline(a, plan, today, now, rank).value;
            var list := if a.rows.Some? then a.rows.value else [];
            && (f.today.Some? <==> a.dayPass)
            && (a.dayPass ==> UsedNear(f.today.value, RowsOn(list, today), 1048576.0))
            && (f.dailyQuota.Some? <==> a.dayPass && a.dailyQuota.Some? && a.dailyQuota.value >= 0.0)
            && (f.dailyQuota.Some? ==> Near(f.dailyQuota.value, a.dailyQuota.value / 1048576.0))
            && f.totalDays == (if a.planDays > 0 then a.planDays else plan.days)
            && f.activatedAt == a.start && f.expiresAt == a.end
            && (f.state == NotActivated <==> !a.activated && a.start.None?)
            && (if f.state != NotActivated && a.end.Some?
                then DaysUntil(f.remainingDays, a.end.value, now)
                     && (f.remainingDays == Some(0) <==> f.state == Expired)
                else f.remainingDays.None?)
  {
    var list := match a.rows case None => [] case Some(list) => list;
    var u := MobDraft(a, list, plan, today);
    StateMeans(u, now, rank);
    UsedOnIsClose(list, MB, today);
    RoundIsCents(OrZero(a.dailyQuota) / MB);
    DaysLeft(u, now, rank);
  }
}
