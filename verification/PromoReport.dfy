/** The promo reports for administrators: usages grouped by agent or by promo code. */
module PromoReport {
  import opened Tables
  import opened Sorting

  // A usage with its transaction's amount, its promo and the promo's agent; a null counts as 0.
  datatype Used = Used(
    user: nat, promo: nat, agent: Option<nat>, paid: Option<int>, discount: Option<int>, credit: Option<int>)

  datatype Grouping = ByAgent | ByPromo

  datatype Key = NoAgent | Id(id: nat)

  datatype Totals = Totals(gross: int, paid: int, discount: int, credit: int)

  datatype Row = Row(key: Key, count: nat, clients: set<nat>, totals: Totals)

  function KeyOf(how: Grouping, u: Used): Key {
    match how
    case ByAgent => if u.agent.Some? then Id(u.agent.value) else NoAgent
    case ByPromo => Id(u.promo)
  }

  function OrZero(n: Option<int>): int {
    match n
    case None => 0
    case Some(value) => value
  }

  function AmountsOf(u: Used): Totals {
    Totals(OrZero(u.paid) + OrZero(u.discount), OrZero(u.paid), OrZero(u.discount), OrZero(u.credit))
  }

  function Plus(a: Totals, b: Totals): Totals {
    Totals(a.gross + b.gross, a.paid + b.paid, a.discount + b.discount, a.credit + b.credit)
  }

  const NOTHING := Totals(0, 0, 0, 0)

  // ---------- the specification: one row for each key, made from the usages with that key ----------

  function Group(how: Grouping, usages: seq<Used>, key: Key): seq<Used> {
    if usages == [] then []
    else
      var rest := Group(how, usages[..|usages| - 1], key);
      if KeyOf(how, usages[|usages| - 1]) == key then rest + [usages[|usages| - 1]] else rest
  }

  function TotalOf(usages: seq<Used>): Totals {
    if usages == [] then NOTHING else Plus(TotalOf(usages[..|usages| - 1]), AmountsOf(usages[|usages| - 1]))
  }

  function Clients(usages: seq<Used>): set<nat> {
    set i | 0 <= i < |usages| :: usages[i].user
  }

  function RowOf(how: Grouping, usages: seq<Used>, key: Key): Row {
    var group := Group(how, usages, key);
    Row(key, |group|, Clients(group), TotalOf(group))
  }

  function Keys(how: Grouping, usages: seq<Used>): set<Key> {
    set i | 0 <= i < |usages| :: KeyOf(how, usages[i])
  }

  predicate DistinctKeys(rows: seq<Row>) {
    forall i, j | 0 <= i < j < |rows| :: rows[i].key != rows[j].key
  }

  function RowKeys(rows: seq<Row>): set<Key> {
    set i | 0 <= i < |rows| :: rows[i].key
  }

  function SumTotals(rows: seq<Row>): Totals {
    if rows == [] then NOTHING else Plus(SumTotals(rows[..|rows| - 1]), rows[|rows| - 1].totals)
  }

  function SumCount(rows: seq<Row>): int {
    if rows == [] then 0 else SumCount(rows[..|rows| - 1]) + rows[|rows| - 1].count
  }

  // Each key has one row, and it is the row of its group.
  predicate Grouped(how: Grouping, usages: seq<Used>, rows: seq<Row>) {
    && DistinctKeys(rows) && RowKeys(rows) == Keys(how, usages)
    && forall i | 0 <= i < |rows| :: rows[i] == RowOf(how, usages, rows[i].key)
  }

  // The keys in the order of their first usage.
  function FirstKeys(how: Grouping, usages: seq<Used>): seq<Key> {
    if usages == [] then []
    else
      var keys := FirstKeys(how, usages[..|usages| - 1]);
      var key := KeyOf(how, usages[|usages| - 1]);
      if key in keys then keys else keys + [key]
  }

  function KeyList(rows: seq<Row>): seq<Key> {
    if rows == [] then [] else KeyList(rows[..|rows| - 1]) + [rows[|rows| - 1].key]
  }

  // ---------- what a row means, usage by usage ----------

  predicate Belongs(how: Grouping, u: Used, key: Key) {
    match how
    case ByAgent => if u.agent.Some? then key == Id(u.agent.value) else key == NoAgent
    case ByPromo => key == Id(u.promo)
  }

  datatype Column = Usages | Paid | Discounts | Credits | Gross

  // What one usage adds to a column.
  function Part(u: Used, column: Column): int {
    var paid := if u.paid.Some? then u.paid.value else 0;
    var discount := if u.discount.Some? then u.discount.value else 0;
    match column
    case Usages => 1
    case Paid => paid
    case Discounts => discount
    case Credits => if u.credit.Some? then u.credit.value else 0
    case Gross => paid + discount
  }

  // The column summed over the usages of the key, or over all.
  function ColumnOf(how: Grouping, usages: seq<Used>, key: Option<Key>, column: Column): int {
    if usages == [] then 0
    else
      var u := usages[|usages| - 1];
      ColumnOf(how, usages[..|usages| - 1], key, column)
      + if key.None? || Belongs(how, u, key.value) then Part(u, column) else 0
  }

  predicate HasColumns(totals: Totals, how: Grouping, usages: seq<Used>, key: Option<Key>) {
    && totals.paid == ColumnOf(how, usages, key, Paid) && totals.discount == ColumnOf(how, usages, key, Discounts)
    && totals.credit == ColumnOf(how, usages, key, Credits) && totals.gross == ColumnOf(how, usages, key, Gross)
  }

  // The users of the usages of the key.
  ghost predicate IsClient(how: Grouping, usages: seq<Used>, key: Key, user: nat) {
    exists u | u in usages :: Belongs(how, u, key) && u.user == user
  }

  lemma {:induction false} GroupHas(how: Grouping, usages: seq<Used>, key: Key, u: Used)
    ensures u in Group(how, usages, key) <==> u in usages && Belongs(how, u, key)
  {
    if usages != [] {
      var init, last := usages[..|usages| - 1], usages[|usages| - 1];
      GroupHas(how, init, key, u);
      assert usages == init + [last];
    }
  }

  lemma {:induction false} GroupMeans(how: Grouping, usages: seq<Used>, key: Key)
    ensures |Group(how, usages, key)| == ColumnOf(how, usages, Some(key), Usages)
    ensures HasColumns(TotalOf(Group(how, usages, key)), how, usages, Some(key))
  {
    if usages != [] {
      var init, u := usages[..|usages| - 1], usages[|usages| - 1];
      GroupMeans(how, init, key);
      TotalStep(Group(how, init, key), u);
    }
  }

  lemma {:induction false} TotalMeans(how: Grouping, usages: seq<Used>)
    ensures HasColumns(TotalOf(usages), how, usages, None)
  {
    if usages != [] {
      TotalMeans(how, usages[..|usages| - 1]);
    }
  }

  // Count, clients and sums of a row are those of the usages that belong to its key.
  ghost predicate RowMeans(how: Grouping, usages: seq<Used>, row: Row) {
    && row.count == ColumnOf(how, usages, Some(row.key), Usages)
    && HasColumns(row.totals, how, usages, Some(row.key))
    && forall user :: user in row.clients <==> IsClient(how, usages, row.key, user)
  }

  lemma RowOfMeans(how: Grouping, usages: seq<Used>, key: Key)
    ensures RowMeans(how, usages, RowOf(how, usages, key))
  {
    var group := Group(how, usages, key);
    GroupMeans(how, usages, key);
    forall user ensures user in Clients(group) <==> IsClient(how, usages, key, user) {
      if IsClient(how, usages, key, user) {
        var u :| u in usages && Belongs(how, u, key) && u.user == user;
        GroupHas(how, usages, key, u);
        assert u in group;
      }
      if user in Clients(group) {
        var i :| 0 <= i < |group| && group[i].user == user;
        GroupHas(how, usages, key, group[i]);
      }
    }
  }

  // ---------- sorting: credit, then paid, both descending ----------

  predicate Before(a: Row, b: Row) {
    a.totals.credit > b.totals.credit || (a.totals.credit == b.totals.credit && a.totals.paid >= b.totals.paid)
  }

  lemma BeforeOrders()
    ensures Ordering(Before)
  {
  }

  lemma LastOf(rows: seq<Row>, row: Row)
    ensures (rows + [row])[..|rows|] == rows
    ensures SumTotals(rows + [row]) == Plus(SumTotals(rows), row.totals)
    ensures SumCount(rows + [row]) == SumCount(rows) + row.count
    ensures KeyList(rows + [row]) == KeyList(rows) + [row.key]
  {
  }

  lemma KeysOf(rows: seq<Row>, row: Row)
    ensures RowKeys(rows + [row]) == RowKeys(rows) + {row.key}
  {
    assert forall i | 0 <= i < |rows| :: (rows + [row])[i] == rows[i];
    assert (rows + [row])[|rows|] == row;
  }

  lemma {:induction false} InsertSums(rows: seq<Row>, row: Row)
    ensures SumTotals(Insert(rows, row, Before)) == Plus(SumTotals(rows), row.totals)
    ensures SumCount(Insert(rows, row, Before)) == SumCount(rows) + row.count
  {
    LastOf(rows, row);
    if rows != [] && !Before(rows[|rows| - 1], row) {
      InsertSums(rows[..|rows| - 1], row);
      LastOf(Insert(rows[..|rows| - 1], row, Before), rows[|rows| - 1]);
    }
  }

  lemma {:induction false} InsertKeys(rows: seq<Row>, row: Row)
    requires DistinctKeys(rows) && row.key !in RowKeys(rows)
    ensures DistinctKeys(Insert(rows, row, Before)) && RowKeys(Insert(rows, row, Before)) == RowKeys(rows) + {row.key}
  {
    if rows == [] || Before(rows[|rows| - 1], row) {
      KeysOf(rows, row);
      AppendKeys(rows, row);
    } else {
      var init, last := rows[..|rows| - 1], rows[|rows| - 1];
      assert rows == init + [last];
      KeysOf(init, last);
      assert last.key !in RowKeys(init);
      InsertKeys(init, row);
      KeysOf(Insert(init, row, Before), last);
      AppendKeys(Insert(init, row, Before), last);
    }
  }

  lemma AppendKeys(rows: seq<Row>, row: Row)
    requires DistinctKeys(rows) && row.key !in RowKeys(rows)
    ensures DistinctKeys(rows + [row])
  {
    forall i, j | 0 <= i < j < |rows + [row]| ensures (rows + [row])[i].key != (rows + [row])[j].key {
      assert rows[i].key in RowKeys(rows);
    }
  }

  /** Sorting the report sorts it, keeps its sums, and leaves rows that compare equal in their order. */
  lemma ReportIsSorted(rows: seq<Row>, to: Row)
    ensures Sorted(Sort(rows, Before), Before) && Ties(Sort(rows, Before), to, Before) == Ties(rows, to, Before)
    ensures SumTotals(Sort(rows, Before)) == SumTotals(rows) && SumCount(Sort(rows, Before)) == SumCount(rows)
  {
    BeforeOrders();
    SortSorts(rows, to, Before);
    SortSums(rows);
  }

  lemma {:induction false} SortSums(rows: seq<Row>)
    ensures SumTotals(Sort(rows, Before)) == SumTotals(rows) && SumCount(Sort(rows, Before)) == SumCount(rows)
  {
    if rows != [] {
      SortSums(rows[..|rows| - 1]);
      InsertSums(Sort(rows[..|rows| - 1], Before), rows[|rows| - 1]);
    }
  }

  lemma {:induction false} SortKeys(rows: seq<Row>)
    requires DistinctKeys(rows)
    ensures DistinctKeys(Sort(rows, Before)) && RowKeys(Sort(rows, Before)) == RowKeys(rows)
  {
    if rows != [] {
      var init, last := rows[..|rows| - 1], rows[|rows| - 1];
      assert rows == init + [last];
      KeysOf(init, last);
      SortKeys(init);
      InsertKeys(Sort(init, Before), last);
    }
  }

  // ---------- the loops ----------

  function AddUsage(row: Row, u: Used): Row {
    Row(row.key, row.count + 1, row.clients + {u.user}, Plus(row.totals, AmountsOf(u)))
  }

  lemma GroupStep(how: Grouping, past: seq<Used>, u: Used, key: Key)
    ensures RowOf(how, past + [u], key) ==
            if KeyOf(how, u) == key then AddUsage(RowOf(how, past, key), u) else RowOf(how, past, key)
  {
    assert (past + [u])[..|past|] == past;
    var group := Group(how, past, key);
    assert (group + [u])[..|group|] == group;
    ClientsStep(group, u);
  }

  lemma ClientsStep(group: seq<Used>, u: Used)
    ensures Clients(group + [u]) == Clients(group) + {u.user}
  {
    assert forall j | 0 <= j < |group| :: (group + [u])[j] == group[j];
    assert (group + [u])[|group|] == u;
  }

  lemma KeysStep(how: Grouping, past: seq<Used>, u: Used)
    ensures Keys(how, past + [u]) == Keys(how, past) + {KeyOf(how, u)}
  {
    assert forall j | 0 <= j < |past| :: (past + [u])[j] == past[j];
    assert (past + [u])[|past|] == u;
  }

  lemma {:induction false} EmptyGroup(how: Grouping, usages: seq<Used>, key: Key)
    requires key !in Keys(how, usages)
    ensures Group(how, usages, key) == []
  {
    if usages != [] {
      var past, u := usages[..|usages| - 1], usages[|usages| - 1];
      assert usages == past + [u];
      KeysStep(how, past, u);
      EmptyGroup(how, past, key);
    }
  }

  lemma {:induction false} SumOfReplaced(rows: seq<Row>, k: nat, u: Used)
    requires k < |rows|
    ensures SumTotals(rows[k := AddUsage(rows[k], u)]) == Plus(SumTotals(rows), AmountsOf(u))
    ensures SumCount(rows[k := AddUsage(rows[k], u)]) == SumCount(rows) + 1
  {
    var n, replaced := |rows| - 1, rows[k := AddUsage(rows[k], u)];
    if k == n {
      assert replaced[..n] == rows[..n];
    } else {
      SumOfReplaced(rows[..n], k, u);
      assert replaced[..n] == rows[..n][k := AddUsage(rows[k], u)];
    }
  }

  // Map.prototype.get on the rows in insertion order.
  method Find(rows: seq<Row>, key: Key) returns (k: nat)
    ensures k <= |rows|
    ensures k < |rows| ==> rows[k].key == key
    ensures k == |rows| ==> key !in RowKeys(rows)
  {
    k := 0;
    while k < |rows| && rows[k].key != key
      invariant k <= |rows| && forall j | 0 <= j < k :: rows[j].key != key
    {
      k := k + 1;
    }
  }

  // Adding a usage to its row keeps every row the row of its group.
  lemma AddKeepsGrouped(how: Grouping, past: seq<Used>, u: Used, rows: seq<Row>, k: nat)
    requires Grouped(how, past, rows) && k < |rows| && rows[k].key == KeyOf(how, u)
    ensures Grouped(how, past + [u], rows[k := AddUsage(rows[k], u)])
  {
    var rows' := rows[k := AddUsage(rows[k], u)];
    KeysStep(how, past, u);
    assert rows[k].key in RowKeys(rows);
    assert RowKeys(rows') == RowKeys(rows) by {
      assert forall j | 0 <= j < |rows| :: rows'[j].key == rows[j].key;
    }
    forall j | 0 <= j < |rows'| ensures rows'[j] == RowOf(how, past + [u], rows'[j].key) {
      GroupStep(how, past, u, rows[j].key);
    }
  }

  // The row a usage with a new key makes.
  function NewRow(how: Grouping, u: Used): Row {
    AddUsage(Row(KeyOf(how, u), 0, {}, NOTHING), u)
  }

  lemma NewIsItsGroup(how: Grouping, past: seq<Used>, u: Used)
    requires KeyOf(how, u) !in Keys(how, past)
    ensures NewRow(how, u) == RowOf(how, past + [u], KeyOf(how, u))
  {
    EmptyGroup(how, past, KeyOf(how, u));
    GroupStep(how, past, u, KeyOf(how, u));
    assert Clients([]) == {};
  }

  lemma NewKeepsRows(how: Grouping, past: seq<Used>, u: Used, rows: seq<Row>, j: nat)
    requires Grouped(how, past, rows) && KeyOf(how, u) !in RowKeys(rows) && j <= |rows|
    ensures var row := if j < |rows| then rows[j] else NewRow(how, u);
            row == RowOf(how, past + [u], row.key)
  {
    if j < |rows| {
      assert rows[j].key in RowKeys(rows);
      GroupStep(how, past, u, rows[j].key);
    } else {
      NewIsItsGroup(how, past, u);
    }
  }

  lemma NewKeepsGrouped(how: Grouping, past: seq<Used>, u: Used, rows: seq<Row>)
    requires Grouped(how, past, rows) && KeyOf(how, u) !in RowKeys(rows)
    ensures Grouped(how, past + [u], rows + [NewRow(how, u)])
  {
    var row := NewRow(how, u);
    KeysStep(how, past, u);
    KeysOf(rows, row);
    AppendKeys(rows, row);
    forall j | 0 <= j < |rows + [row]| ensures (rows + [row])[j] == RowOf(how, past + [u], (rows + [row])[j].key) {
      NewKeepsRows(how, past, u, rows, j);
    }
  }

  // Grouping does not depend on the order of the rows.
  lemma SortKeepsGrouped(how: Grouping, usages: seq<Used>, rows: seq<Row>)
    requires Grouped(how, usages, rows)
    ensures Grouped(how, usages, Sort(rows, Before))
  {
    var sorted := Sort(rows, Before);
    SortKeys(rows);
    forall i | 0 <= i < |sorted| ensures sorted[i] == RowOf(how, usages, sorted[i].key) {
      SortHas(rows, Before, i);
    }
  }

  // What the loop has made of the usages it has seen.
  ghost predicate SoFar(how: Grouping, past: seq<Used>, rows: seq<Row>) {
    && KeyList(rows) == FirstKeys(how, past)
    && SumCount(rows) == |past| && SumTotals(rows) == TotalOf(past)
  }

  lemma TotalStep(past: seq<Used>, u: Used)
    ensures TotalOf(past + [u]) == Plus(TotalOf(past), AmountsOf(u))
  {
    assert (past + [u])[..|past|] == past;
  }

  lemma FirstKeysStep(how: Grouping, past: seq<Used>, u: Used)
    ensures var keys := FirstKeys(how, past);
            FirstKeys(how, past + [u]) == if KeyOf(how, u) in keys then keys else keys + [KeyOf(how, u)]
  {
    assert (past + [u])[..|past|] == past;
  }

  lemma {:induction false} KeyListHas(rows: seq<Row>, key: Key)
    ensures key in KeyList(rows) <==> key in RowKeys(rows)
  {
    if rows != [] {
      var init, last := rows[..|rows| - 1], rows[|rows| - 1];
      assert rows == init + [last];
      KeysOf(init, last);
      KeyListHas(init, key);
    }
  }

  lemma {:induction false} KeyListSame(rows: seq<Row>, k: nat, row: Row)
    requires k < |rows| && row.key == rows[k].key
    ensures KeyList(rows[k := row]) == KeyList(rows)
  {
    var n := |rows| - 1;
    if k == n {
      assert rows[k := row][..n] == rows[..n];
    } else {
      KeyListSame(rows[..n], k, row);
      assert rows[k := row][..n] == rows[..n][k := row];
    }
  }

  lemma AddSoFar(how: Grouping, past: seq<Used>, u: Used, rows: seq<Row>, k: nat)
    requires SoFar(how, past, rows) && k < |rows| && rows[k].key == KeyOf(how, u)
    ensures SoFar(how, past + [u], rows[k := AddUsage(rows[k], u)])
  {
    SumOfReplaced(rows, k, u);
    KeyListSame(rows, k, AddUsage(rows[k], u));
    KeyListHas(rows, KeyOf(how, u));
    TotalStep(past, u);
    FirstKeysStep(how, past, u);
  }

  lemma NewSoFar(how: Grouping, past: seq<Used>, u: Used, rows: seq<Row>, row: Row)
    requires SoFar(how, past, rows) && KeyOf(how, u) !in RowKeys(rows)
    requires row.key == KeyOf(how, u) && row.count == 1 && row.totals == AmountsOf(u)
    ensures SoFar(how, past + [u], rows + [row])
  {
    LastOf(rows, row);
    KeyListHas(rows, row.key);
    TotalStep(past, u);
    FirstKeysStep(how, past, u);
  }

  /** The rows the loop may have made of the usages it has seen. */
  ghost function Progress(how: Grouping, past: seq<Used>): iset<seq<Row>> {
    iset rows: seq<Row> | Grouped(how, past, rows) && SoFar(how, past, rows)
  }

  lemma Start(how: Grouping)
    ensures [] in Progress(how, [])
  {
    assert RowKeys([]) == Keys(how, []);
  }

  lemma Counted(how: Grouping, past: seq<Used>, u: Used, rows: seq<Row>, k: nat)
    requires rows in Progress(how, past) && k < |rows| && rows[k].key == KeyOf(how, u)
    ensures rows[k := AddUsage(rows[k], u)] in Progress(how, past + [u])
  {
    AddKeepsGrouped(how, past, u, rows, k);
    AddSoFar(how, past, u, rows, k);
  }

  lemma Opened(how: Grouping, past: seq<Used>, u: Used, rows: seq<Row>)
    requires rows in Progress(how, past) && KeyOf(how, u) !in RowKeys(rows)
    ensures rows + [NewRow(how, u)] in Progress(how, past + [u])
  {
    NewKeepsGrouped(how, past, u, rows);
    OpenedSums(how, past, u, rows);
  }

  lemma OpenedSums(how: Grouping, past: seq<Used>, u: Used, rows: seq<Row>)
    requires SoFar(how, past, rows) && KeyOf(how, u) !in RowKeys(rows)
    ensures SoFar(how, past + [u], rows + [NewRow(how, u)])
  {
    NewSoFar(how, past, u, rows, NewRow(how, u));
  }

  lemma Closed(how: Grouping, usages: seq<Used>, rows: seq<Row>)
    requires rows in Progress(how, usages)
    ensures Grouped(how, usages, Sort(rows, Before)) && Sorted(Sort(rows, Before), Before)
    ensures SumCount(Sort(rows, Before)) == |usages| && SumTotals(Sort(rows, Before)) == TotalOf(usages)
    ensures KeyList(rows) == FirstKeys(how, usages)
  {
    SortKeepsGrouped(how, usages, rows);
    ReportIsSorted(rows, Row(NoAgent, 0, {}, NOTHING));
  }

  /** One row for each agent, or promo code, that has a usage: its count, clients, paid amount, discount, credit and
      gross are those of its usages, each counted once. The rows are in order of credit and then of paid amount, both
      descending, ties in the order of their first usage, and add up to the sums over all usages. */
  method AggregateRows(how: Grouping, usages: seq<Used>) returns (rows: seq<Row>)
    ensures DistinctKeys(rows) && forall i | 0 <= i < |rows| :: RowMeans(how, usages, rows[i])
    ensures forall u | u in usages :: exists i | 0 <= i < |rows| :: Belongs(how, u, rows[i].key)
    ensures forall i | 0 <= i < |rows| :: rows[i].count > 0
    ensures forall i, j | 0 <= i < j < |rows| ::
              || rows[i].totals.credit > rows[j].totals.credit
              || (rows[i].totals.credit == rows[j].totals.credit && rows[i].totals.paid >= rows[j].totals.paid)
    ensures SumCount(rows) == |usages| && HasColumns(SumTotals(rows), how, usages, None)
    ensures exists first :: KeyList(first) == FirstKeys(how, usages) && rows == Sort(first, Before)
  {
    rows := [];
    Start(how);
    for i := 0 to |usages|
      invariant rows in Progress(how, usages[..i])
    {
      assert usages[..i + 1] == usages[..i] + [usages[i]];
      var k := Find(rows, KeyOf(how, usages[i]));
      if k < |rows| {
        Counted(how, usages[..i], usages[i], rows, k);
        rows := rows[k := AddUsage(rows[k], usages[i])];
      } else {
        Opened(how, usages[..i], usages[i], rows);
        rows := rows + [NewRow(how, usages[i])];
      }
    }
    assert usages[..|usages|] == usages;
    Closed(how, usages, rows);
    rows := Sort(rows, Before);
    GroupedMeans(how, usages, rows);
    TotalMeans(how, usages);
  }

  lemma GroupedMeans(how: Grouping, usages: seq<Used>, rows: seq<Row>)
    requires Grouped(how, usages, rows)
    ensures forall i | 0 <= i < |rows| :: RowMeans(how, usages, rows[i]) && rows[i].count > 0
    ensures forall u | u in usages :: exists i | 0 <= i < |rows| :: Belongs(how, u, rows[i].key)
  {
    forall i | 0 <= i < |rows| ensures RowMeans(how, usages, rows[i]) && rows[i].count > 0 {
      RowOfMeans(how, usages, rows[i].key);
      GroupMeans(how, usages, rows[i].key);
      assert rows[i].key in RowKeys(rows);
      var k :| 0 <= k < |usages| && KeyOf(how, usages[k]) == rows[i].key;
      GroupHas(how, usages, rows[i].key, usages[k]);
    }
    forall u | u in usages ensures exists i | 0 <= i < |rows| :: Belongs(how, u, rows[i].key) {
      assert KeyOf(how, u) in Keys(how, usages);
      var i :| 0 <= i < |rows| && rows[i].key == KeyOf(how, u);
    }
  }

  /** In every row the gross amount is the paid amount plus the discount. */
  lemma {:induction false} GrossIsPaidPlusDiscount(usages: seq<Used>)
    ensures TotalOf(usages).gross == TotalOf(usages).paid + TotalOf(usages).discount
  {
    if usages != [] {
      GrossIsPaidPlusDiscount(usages[..|usages| - 1]);
    }
  }
}
