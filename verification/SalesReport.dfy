/** The summary of the sales report: revenue from grouped counts instead of all rows. */
module SalesReport {
  import opened Tables

  datatype SimStatus = Activated | Expired

  // A sold SIM: its tariff, and what is known of its activation.
  datatype Sale = Sale(tariff: nat, status: Option<SimStatus>)

  datatype GroupBy = TariffId | ActivationStatus

  datatype Key = Tariff(id: nat) | Status(status: Option<SimStatus>)

  datatype Group = Group(key: Key, count: nat)

  function KeyOf(field: GroupBy, sale: Sale): Key {
    match field
    case TariffId => Tariff(sale.tariff)
    case ActivationStatus => Status(sale.status)
  }

  function Matching(field: GroupBy, sales: seq<Sale>, key: Key): nat {
    if sales == [] then 0
    else Matching(field, sales[1..], key) + if KeyOf(field, sales[0]) == key then 1 else 0
  }

  /** What groupBy with a count answers: one group for each key there is, in any order, with the number
      of rows that have it. */
  predicate IsGrouping(field: GroupBy, sales: seq<Sale>, groups: seq<Group>) {
    && (forall i, j | 0 <= i < j < |groups| :: groups[i].key != groups[j].key)
    && (forall g | g in groups :: g.count == Matching(field, sales, g.key) && g.count > 0)
    && (forall sale | sale in sales :: HasGroup(groups, KeyOf(field, sale)))
  }

  predicate HasGroup(groups: seq<Group>, key: Key) {
    exists g | g in groups :: g.key == key
  }

  datatype Summary = Summary(count: int, kopecks: int, average: real, activated: int, expired: int, notActivated: int)

  // Prices of the tariffs that were found; a missing price counts as 0.
  function PriceById(prices: map<nat, Option<int>>, tariff: nat): int {
    if tariff in prices then
      match prices[tariff]
      case None => 0
      case Some(price) => price
    else 0
  }

  function PriceOf(prices: map<nat, Option<int>>, key: Key): int {
    match key
    case Tariff(id) => PriceById(prices, id)
    case Status(_) => 0
  }

  // Row by row: the price of each SIM's tariff, where it is known.
  function Revenue(prices: map<nat, Option<int>>, sales: seq<Sale>): int {
    if sales == [] then 0
    else
      var t := sales[0].tariff;
      (if t in prices && prices[t].Some? then prices[t].value else 0) + Revenue(prices, sales[1..])
  }

  // How many SIMs have this status.
  function WithStatus(sales: seq<Sale>, status: Option<SimStatus>): nat {
    if sales == [] then 0 else WithStatus(sales[1..], status) + if sales[0].status == status then 1 else 0
  }

  lemma {:induction false} StatusMatches(sales: seq<Sale>, status: Option<SimStatus>)
    ensures Matching(ActivationStatus, sales, Status(status)) == WithStatus(sales, status)
  {
    if sales != [] {
      StatusMatches(sales[1..], status);
    }
  }

  // A weight on keys, summed over the groups.
  function GroupSum(groups: seq<Group>, weight: Key -> int): int {
    if groups == [] then 0
    else GroupSum(groups[..|groups| - 1], weight) + weight(groups[|groups| - 1].key) * groups[|groups| - 1].count
  }

  function Priced(prices: map<nat, Option<int>>): Key -> int {
    key => PriceOf(prices, key)
  }

  function Each(): Key -> int {
    key => 1
  }

  // `find(...)?._count ?? 0`
  function CountOf(groups: seq<Group>, status: Option<SimStatus>): int {
    if groups == [] then 0
    else if groups[0].key == Status(status) then groups[0].count
    else CountOf(groups[1..], status)
  }

  // Math.round on a quotient of integers.
  function Round(x: real): int {
    (x + 0.5).Floor
  }

  // Kopecks as roubles.
  function InUnits(kopecks: int): real {
    kopecks as real / 100.0
  }

  // ---------- grouping loses nothing ----------

  function RowSum(field: GroupBy, sales: seq<Sale>, weight: Key -> int): int {
    if sales == [] then 0 else weight(KeyOf(field, sales[0])) + RowSum(field, sales[1..], weight)
  }

  // The rows that do not have the key.
  function Rest(field: GroupBy, sales: seq<Sale>, key: Key): seq<Sale> {
    if sales == [] then []
    else if KeyOf(field, sales[0]) == key then Rest(field, sales[1..], key)
    else [sales[0]] + Rest(field, sales[1..], key)
  }

  lemma {:induction false} RestSum(field: GroupBy, sales: seq<Sale>, key: Key, weight: Key -> int)
    ensures RowSum(field, sales, weight) ==
            RowSum(field, Rest(field, sales, key), weight) + weight(key) * Matching(field, sales, key)
  {
    if sales != [] {
      RestSum(field, sales[1..], key, weight);
      if KeyOf(field, sales[0]) != key {
        assert ([sales[0]] + Rest(field, sales[1..], key))[1..] == Rest(field, sales[1..], key);
      } else {
        OneMore(weight(key), Matching(field, sales[1..], key));
      }
    }
  }

  lemma OneMore(weight: int, count: nat)
    ensures weight * (count + 1) == weight * count + weight
  {
  }

  lemma {:induction false} RestMatching(field: GroupBy, sales: seq<Sale>, key: Key, k: Key)
    ensures Matching(field, Rest(field, sales, key), k) == if k == key then 0 else Matching(field, sales, k)
  {
    if sales != [] {
      RestMatching(field, sales[1..], key, k);
      if KeyOf(field, sales[0]) != key {
        assert ([sales[0]] + Rest(field, sales[1..], key))[1..] == Rest(field, sales[1..], key);
      }
    }
  }

  lemma {:induction false} RestHas(field: GroupBy, sales: seq<Sale>, key: Key, sale: Sale)
    requires sale in Rest(field, sales, key)
    ensures sale in sales && KeyOf(field, sale) != key
  {
    if KeyOf(field, sales[0]) == key || sale != sales[0] {
      RestHas(field, sales[1..], key, sale);
    }
  }

  lemma RestIsGrouped(field: GroupBy, sales: seq<Sale>, groups: seq<Group>)
    requires IsGrouping(field, sales, groups) && groups != []
    ensures IsGrouping(field, Rest(field, sales, groups[|groups| - 1].key), groups[..|groups| - 1])
  {
    var init, last := groups[..|groups| - 1], groups[|groups| - 1];
    var rest := Rest(field, sales, last.key);
    forall sale | sale in rest ensures HasGroup(init, KeyOf(field, sale)) {
      RestHas(field, sales, last.key, sale);
      var g :| g in groups && g.key == KeyOf(field, sale);
      assert g in init;
    }
    forall g | g in init ensures g.count == Matching(field, rest, g.key) && g.count > 0 {
      RestMatching(field, sales, last.key, g.key);
      var i :| 0 <= i < |init| && init[i] == g;
      assert groups[i].key != last.key;
    }
  }

  lemma FirstIsIn(sales: seq<Sale>)
    ensures sales != [] ==> exists sale :: sale in sales
  {
    assert sales != [] ==> sales[0] in sales;
  }

  lemma NoGroupsNoRows(field: GroupBy, sales: seq<Sale>)
    requires IsGrouping(field, sales, [])
    ensures sales == []
  {
    assert forall sale | sale in sales :: HasGroup([], KeyOf(field, sale));
    FirstIsIn(sales);
  }

  /** However the database orders the groups, a sum over them is the sum over the rows. */
  lemma {:induction false} GroupsSumToRows(field: GroupBy, sales: seq<Sale>, groups: seq<Group>, weight: Key -> int)
    requires IsGrouping(field, sales, groups)
    ensures GroupSum(groups, weight) == RowSum(field, sales, weight)
    decreases |groups|
  {
    if groups == [] {
      NoGroupsNoRows(field, sales);
    } else {
      var init, last := groups[..|groups| - 1], groups[|groups| - 1];
      RestSum(field, sales, last.key, weight);
      RestIsGrouped(field, sales, groups);
      GroupsSumToRows(field, Rest(field, sales, last.key), init, weight);
      assert last in groups;
    }
  }

  lemma {:induction false} RevenueIsRowSum(prices: map<nat, Option<int>>, sales: seq<Sale>)
    ensures Revenue(prices, sales) == RowSum(TariffId, sales, Priced(prices))
  {
    if sales != [] {
      RevenueIsRowSum(prices, sales[1..]);
    }
  }

  lemma {:induction false} EachOnce(field: GroupBy, sales: seq<Sale>)
    ensures RowSum(field, sales, Each()) == |sales|
  {
    if sales != [] {
      EachOnce(field, sales[1..]);
    }
  }

  lemma {:induction false} CountIsMatching(sales: seq<Sale>, groups: seq<Group>, status: Option<SimStatus>, n: nat)
    requires n == Matching(ActivationStatus, sales, Status(status))
    requires forall i, j | 0 <= i < j < |groups| :: groups[i].key != groups[j].key
    requires forall g | g in groups && g.key == Status(status) :: g.count == n
    requires HasGroup(groups, Status(status)) || n == 0
    ensures CountOf(groups, status) == n
    decreases |groups|
  {
    if groups != [] && groups[0].key != Status(status) {
      if HasGroup(groups, Status(status)) {
        var g :| g in groups && g.key == Status(status);
        assert g in groups[1..];
      }
      CountIsMatching(sales, groups[1..], status, n);
    } else if groups != [] {
      assert groups[0] in groups;
    }
  }

  lemma {:induction false} MatchingHasRow(field: GroupBy, sales: seq<Sale>, key: Key)
    requires Matching(field, sales, key) > 0
    ensures exists sale | sale in sales :: KeyOf(field, sale) == key
  {
    if KeyOf(field, sales[0]) == key {
      assert sales[0] in sales;
    } else {
      MatchingHasRow(field, sales[1..], key);
      var sale :| sale in sales[1..] && KeyOf(field, sale) == key;
      assert sale in sales;
    }
  }

  lemma StatusCount(sales: seq<Sale>, byStatus: seq<Group>, status: Option<SimStatus>)
    requires IsGrouping(ActivationStatus, sales, byStatus)
    ensures CountOf(byStatus, status) == Matching(ActivationStatus, sales, Status(status))
  {
    if Matching(ActivationStatus, sales, Status(status)) > 0 {
      MatchingHasRow(ActivationStatus, sales, Status(status));
    }
    CountIsMatching(sales, byStatus, status, Matching(ActivationStatus, sales, Status(status)));
  }

  lemma {:induction false} StatusesAddUp(sales: seq<Sale>)
    ensures Matching(ActivationStatus, sales, Status(Some(Activated)))
            + Matching(ActivationStatus, sales, Status(Some(Expired)))
            + Matching(ActivationStatus, sales, Status(None)) == |sales|
  {
    if sales != [] {
      StatusesAddUp(sales[1..]);
      match sales[0].status
      case None => {}
      case Some(status) => assert status == Activated || status == Expired;
    }
  }

  lemma SummaryIsRowByRow(
    sales: seq<Sale>, byTariff: seq<Group>, byStatus: seq<Group>, prices: map<nat, Option<int>>)
    requires IsGrouping(TariffId, sales, byTariff) && IsGrouping(ActivationStatus, sales, byStatus)
    ensures GroupSum(byTariff, Priced(prices)) == Revenue(prices, sales)
    ensures GroupSum(byStatus, Each()) == |sales|
    ensures forall status :: CountOf(byStatus, status) == Matching(ActivationStatus, sales, Status(status))
    ensures CountOf(byStatus, Some(Activated)) + CountOf(byStatus, Some(Expired)) + CountOf(byStatus, None) == |sales|
  {
    GroupsSumToRows(TariffId, sales, byTariff, Priced(prices));
    RevenueIsRowSum(prices, sales);
    GroupsSumToRows(ActivationStatus, sales, byStatus, Each());
    EachOnce(ActivationStatus, sales);
    forall status ensures CountOf(byStatus, status) == Matching(ActivationStatus, sales, Status(status)) {
      StatusCount(sales, byStatus, status);
    }
    StatusesAddUp(sales);
  }

  /** `sales` are the rows the two groupings are of. The summary counts every row once, its revenue is
      the row-by-row revenue, each count is the number of rows with that status, and the three counts
      add up to all rows, whatever the order of the groups. */
  method BuildSummary(
    ghost sales: seq<Sale>, byTariff: seq<Group>, byStatus: seq<Group>, prices: map<nat, Option<int>>)
    returns (s: Summary)
    requires IsGrouping(TariffId, sales, byTariff) && IsGrouping(ActivationStatus, sales, byStatus)
    ensures s.count == |sales| && s.kopecks == Revenue(prices, sales)
    ensures s.activated == WithStatus(sales, Some(Activated)) && s.expired == WithStatus(sales, Some(Expired))
    ensures s.notActivated == WithStatus(sales, None)
    ensures s.activated + s.expired + s.notActivated == |sales|
    ensures sales == [] ==> s.average == 0.0
    ensures sales != [] ==>
              var exact := Revenue(prices, sales) as real / |sales| as real;
              exists cents: int :: s.average == InUnits(cents) && exact - 0.5 < cents as real <= exact + 0.5
  {
    StatusMatches(sales, Some(Activated));
    StatusMatches(sales, Some(Expired));
    StatusMatches(sales, None);
    var kopecks, count := 0, 0;
    for i := 0 to |byTariff|
      invariant kopecks == GroupSum(byTariff[..i], Priced(prices))
    {
      assert byTariff[..i + 1][..i] == byTariff[..i];
      kopecks := kopecks + PriceOf(prices, byTariff[i].key) * byTariff[i].count;
    }
    for i := 0 to |byStatus|
      invariant count == GroupSum(byStatus[..i], Each())
    {
      assert byStatus[..i + 1][..i] == byStatus[..i];
      count := count + byStatus[i].count;
    }
    assert byTariff[..|byTariff|] == byTariff && byStatus[..|byStatus|] == byStatus;
    SummaryIsRowByRow(sales, byTariff, byStatus, prices);
    var average := if count > 0 then Round(kopecks as real / count as real) as real / 100.0 else 0.0;
    if count > 0 {
      assert average == InUnits(Round(kopecks as real / count as real));
    }
    s := Summary(
      count, kopecks, average,
      CountOf(byStatus, Some(Activated)), CountOf(byStatus, Some(Expired)), CountOf(byStatus, None));
  }
}
