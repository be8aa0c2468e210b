/** What a checkout charges: the basket total, the promo discount, the receipt and one SIM per unit. */
module Checkouts {
  import opened Tables
  import opened Correlation

  datatype Tariff = Tariff(id: nat, price: Option<int>, active: bool, provider: Option<Provider>)

  // Amounts are in kopecks.
  datatype Item = Item(quantity: int, price: Option<int>, tariff: Option<Tariff>)

  // Discount and credit are copied from the promo settings, which are validated not to be negative.
  datatype PromoCode = PromoCode(
    id: nat, active: bool, expired: bool, limit: Option<int>, used: int, usedByUser: bool,
    discount: nat, agent: Option<nat>, credit: nat)

  // What the caller sends as promo code: nothing, or a text that finds a code or does not.
  datatype Code = NoCode | Unknown | Found(promo: PromoCode)

  datatype Discount = Discount(promo: nat, amount: nat, credit: nat)

  datatype Problem =
    EmptyBasket | UnsupportedTariff | PromoUnknown | PromoExpired | PromoExhausted | PromoUsed | NothingToPay

  datatype Line = Line(price: int, quantity: int, amount: int)

  datatype Unit = Unit(tariff: nat, provider: Provider)

  datatype Payment = Payment(
    charge: int, original: int, discount: Option<Discount>, receipt: seq<Line>, stored: string, units: seq<Unit>)

  // ---------- the specification ----------

  function PriceOf(item: Item): int {
    if item.price.Some? then item.price.value
    else if item.tariff.Some? && item.tariff.value.price.Some? then item.tariff.value.price.value
    else 0
  }

  function Total(items: seq<Item>): int {
    if items == [] then 0 else Total(items[..|items| - 1]) + PriceOf(items[|items| - 1]) * items[|items| - 1].quantity
  }

  function SumOf(lines: seq<Line>): int {
    if lines == [] then 0 else SumOf(lines[..|lines| - 1]) + lines[|lines| - 1].amount
  }

  predicate Sellable(item: Item) {
    && item.tariff.Some? && item.tariff.value.active
    && item.tariff.value.provider.Some? && Supported(item.tariff.value.provider.value)
  }

  function Repeat(u: Unit, n: int): seq<Unit> {
    if n <= 0 then [] else Repeat(u, n - 1) + [u]
  }

  function UnitOf(item: Item): Unit
    requires Sellable(item)
  {
    Unit(item.tariff.value.id, item.tariff.value.provider.value)
  }

  // One unit of each item as often as its quantity says, in the order of the basket.
  function UnitsOf(items: seq<Item>): seq<Unit>
    requires forall item | item in items :: Sellable(item)
  {
    if items == [] then []
    else UnitsOf(items[..|items| - 1]) + Repeat(UnitOf(items[|items| - 1]), items[|items| - 1].quantity)
  }

  // ---------- validateCodeForPayment ----------

  function Min(a: int, b: int): int {
    if a <= b then a else b
  }

  function ValidateCode(code: Code, total: int): Result<Option<Discount>, Problem> {
    match code
    case NoCode => Ok(None)
    case Unknown => Err(if total <= 0 then EmptyBasket else PromoUnknown)
    case Found(p) =>
      if total <= 0 then Err(EmptyBasket)
      else if !p.active then Err(PromoUnknown)
      else if p.expired then Err(PromoExpired)
      else if p.limit.Some? && p.used >= p.limit.value then Err(PromoExhausted)
      else if p.limit == Some(1) && p.usedByUser then Err(PromoUsed)
      else if total - Min(p.discount, total) <= 0 then Err(NothingToPay)
      else Ok(Some(Discount(p.id, Min(p.discount, total), if p.agent.Some? then p.credit else 0)))
  }

  /** A code is accepted exactly when it may be used and leaves something to pay; it then gives its whole
      discount, and credits nobody when it has no agent. */
  lemma AcceptedExactlyWhen(p: PromoCode, total: int)
    ensures var r := ValidateCode(Found(p), total);
            && (r.Ok? <==>
                  && p.active && !p.expired && total > 0 && p.discount < total
                  && (p.limit.None? || p.used < p.limit.value) && !(p.limit == Some(1) && p.usedByUser))
            && (r.Ok? ==> r.value == Some(Discount(p.id, p.discount, if p.agent.Some? then p.credit else 0)))
  {
  }

  /** No code gives no discount, even for an empty basket. Any other code is refused with the first reason that
      applies, in this order. */
  lemma RefusedWith(code: Code, total: int)
    ensures var r := ValidateCode(code, total);
            match code
            case NoCode => r == Ok(None)
            case Unknown => r == Err(if total <= 0 then EmptyBasket else PromoUnknown)
            case Found(p) =>
              && (total <= 0 ==> r == Err(EmptyBasket))
              && (total > 0 && !p.active ==> r == Err(PromoUnknown))
              && (total > 0 && p.active && p.expired ==> r == Err(PromoExpired))
              && var usable := total > 0 && p.active && !p.expired;
                 var exhausted := p.limit.Some? && p.limit.value <= p.used;
                 var usedUp := p.limit == Some(1) && p.usedByUser;
                 && (usable && exhausted ==> r == Err(PromoExhausted))
                 && (usable && !exhausted && usedUp ==> r == Err(PromoUsed))
                 && (usable && !exhausted && !usedUp && total <= p.discount ==> r == Err(NothingToPay))
                 && (usable && !exhausted && !usedUp && p.discount < total ==> r.Ok?)
  {
  }

  // ---------- getPaymentInfos ----------

  // The price an item is sold at: its own, or else its tariff's, or else nothing.
  predicate Costs(item: Item, price: int) {
    && (item.price.Some? ==> price == item.price.value)
    && (item.price.None? && item.tariff.Some? && item.tariff.value.price.Some? ==>
          price == item.tariff.value.price.value)
    && (item.price.None? && (item.tariff.None? || item.tariff.value.price.None?) ==> price == 0)
  }

  predicate AllCost(items: seq<Item>, prices: seq<int>) {
    |prices| == |items| && forall i | 0 <= i < |items| :: Costs(items[i], prices[i])
  }

  // What the items come to at these prices.
  function Worth(items: seq<Item>, prices: seq<int>): int
    requires |prices| == |items|
  {
    if items == [] then 0
    else
      var n := |items| - 1;
      Worth(items[..n], prices[..n]) + prices[n] * items[n].quantity
  }

  /** The total of a basket is what its items come to at the prices they are sold at, and those are determined. */
  lemma {:induction false} TotalIsWorth(items: seq<Item>, prices: seq<int>)
    requires AllCost(items, prices)
    ensures Total(items) == Worth(items, prices)
  {
    if items != [] {
      TotalIsWorth(items[..|items| - 1], prices[..|items| - 1]);
    }
  }

  function Prices(items: seq<Item>): (prices: seq<int>)
    ensures AllCost(items, prices)
  {
    seq(|items|, i requires 0 <= i < |items| => PriceOf(items[i]))
  }

  lemma SumOfOne(line: Line)
    ensures SumOf([line]) == line.amount
  {
    assert [line][..0] == [];
  }

  // One line in all when there is a discount, else one line for each item.
  method BuildReceipt(items: seq<Item>, discount: int, charge: int) returns (lines: seq<Line>)
    ensures discount > 0 ==> lines == [Line(charge, 1, charge)]
    ensures discount <= 0 ==>
              && |lines| == |items|
              && forall i | 0 <= i < |items| ::
                   && Costs(items[i], lines[i].price) && lines[i].quantity == items[i].quantity
                   && lines[i].amount == lines[i].price * lines[i].quantity
    ensures SumOf(lines) == if discount > 0 then charge else Total(items)
  {
    if discount > 0 {
      SumOfOne(Line(charge, 1, charge));
      return [Line(charge, 1, charge)];
    }
    lines := [];
    for i := 0 to |items|
      invariant |lines| == i && SumOf(lines) == Total(items[..i])
      invariant forall j | 0 <= j < i ::
                  lines[j] == Line(PriceOf(items[j]), items[j].quantity, PriceOf(items[j]) * items[j].quantity)
    {
      var line := Line(PriceOf(items[i]), items[i].quantity, PriceOf(items[i]) * items[i].quantity);
      assert items[..i + 1][..i] == items[..i] && (lines + [line])[..i] == lines;
      lines := lines + [line];
    }
    assert items[..|items|] == items;
  }

  // The rows written by the two nested loops: one for each unit.
  method MakeUnits(items: seq<Item>) returns (units: seq<Unit>)
    requires forall item | item in items :: Sellable(item)
    ensures units == UnitsOf(items)
  {
    units := [];
    for i := 0 to |items|
      invariant units == UnitsOf(items[..i])
    {
      assert items[..i + 1][..i] == items[..i];
      var quantity := items[i].quantity;
      var q := 0;
      while q < quantity
        invariant 0 <= q && (if quantity >= 0 then q <= quantity else q == 0)
        invariant units == UnitsOf(items[..i]) + Repeat(UnitOf(items[i]), q)
      {
        units := units + [UnitOf(items[i])];
        q := q + 1;
      }
      assert Repeat(UnitOf(items[i]), q) == Repeat(UnitOf(items[i]), quantity);
    }
    assert items[..|items|] == items;
  }

  method BasketTotal(items: seq<Item>) returns (total: int)
    ensures total == Total(items)
  {
    total := 0;
    for i := 0 to |items|
      invariant total == Total(items[..i])
    {
      assert items[..i + 1][..i] == items[..i];
      total := total + PriceOf(items[i]) * items[i].quantity;
    }
    assert items[..|items|] == items;
  }

  // Number.prototype.toString for an integer.
  function Text(n: int): string {
    if n < 0 then "-" + Decimal(-n) else Decimal(n)
  }

  // Number(text) of such a text, as the reports read it back.
  function NumberOf(text: string): int {
    if text != "" && text[0] == '-' then
      var n: int := Value(text[1..]);
      -n
    else Value(text)
  }

  lemma Signed(digits: string)
    ensures NumberOf("-" + digits) == -(Value(digits) as int)
  {
    assert ("-" + digits)[1..] == digits;
  }

  lemma Unsigned(digits: string)
    requires digits != "" && digits[0] != '-'
    ensures NumberOf(digits) == Value(digits)
  {
  }

  lemma {:induction false} NegativeText(n: nat)
    requires n > 0
    ensures NumberOf("-" + Decimal(n)) == -(n as int)
  {
    DecimalRoundTrip(n);
    Signed(Decimal(n));
  }

  lemma {:induction false} PositiveText(n: nat)
    ensures NumberOf(Decimal(n)) == n
  {
    DecimalRoundTrip(n);
    NoSign(n);
    Unsigned(Decimal(n));
  }

  lemma {:induction false} TextRoundTrip(n: int)
    ensures NumberOf(Text(n)) == n
  {
    if n < 0 {
      assert Text(n) == "-" + Decimal(-n);
      NegativeText(-n);
    } else {
      assert Text(n) == Decimal(n);
      PositiveText(n);
    }
  }

  lemma {:induction false} NoSign(n: nat)
    ensures Decimal(n)[0] != '-'
  {
    if n >= 10 {
      NoSign(n / 10);
    }
  }

  /** The charge is the basket total less the discount, so never more than the total, and positive with a
      promo. The receipt lines add up to it, the stored amount plus the discount gives the basket total
      back, and one SIM row is made for each unit. */
  method PreparePayment(items: seq<Item>, code: Code) returns (r: Result<Payment, Problem>)
    ensures items == [] ==> r == Err(EmptyBasket)
    ensures (exists item | item in items ::
               || item.tariff.None? || !item.tariff.value.active
               || item.tariff.value.provider !in {Some(JoyTel), Some(BillionConnect), Some(Mobiline)}) ==>
              r == Err(UnsupportedTariff)
    ensures items != [] && (forall item | item in items :: Sellable(item)) ==>
              (r.Ok? <==> ValidateCode(code, Total(items)).Ok?)
              && (r.Err? ==> r.error == ValidateCode(code, Total(items)).error)
    ensures r.Ok? ==>
              var p := r.value;
              var off := if p.discount.Some? then p.discount.value.amount else 0;
              && items != [] && (forall item | item in items :: Sellable(item))
              && ValidateCode(code, Total(items)) == Ok(p.discount)
              && p.original == Total(items) && p.charge == Total(items) - off
              && p.charge <= Total(items) && (p.discount.Some? ==> p.charge > 0)
              && SumOf(p.receipt) == p.charge
              && (forall prices | AllCost(items, prices) :: p.charge + off == Worth(items, prices))
              && AllCost(items, Prices(items))
              && NumberOf(p.stored) + off == Total(items)
              && p.units == UnitsOf(items)
  {
    if items == [] {
      return Err(EmptyBasket);
    }
    var total := BasketTotal(items);
    for i := 0 to |items|
      invariant forall j | 0 <= j < i :: Sellable(items[j])
    {
      if !Sellable(items[i]) {
        return Err(UnsupportedTariff);
      }
    }
    var promo := ValidateCode(code, total);
    if promo.Err? {
      return Err(promo.error);
    }
    var off := if promo.value.Some? then promo.value.value.amount else 0;
    var receipt := BuildReceipt(items, off, total - off);
    var units := MakeUnits(items);
    TextRoundTrip(total - off);
    forall prices | AllCost(items, prices) ensures total == Worth(items, prices) {
      TotalIsWorth(items, prices);
    }
    r := Ok(Payment(total - off, total, promo.value, receipt, Text(total - off), units));
  }

  // ---------- one row for each unit ----------

  function Units(items: seq<Item>): int {
    if items == [] then 0
    else Units(items[..|items| - 1]) + if items[|items| - 1].quantity > 0 then items[|items| - 1].quantity else 0
  }

  lemma {:induction false} RepeatCounts(u: Unit, n: int)
    ensures |Repeat(u, n)| == (if n > 0 then n else 0) && forall v | v in Repeat(u, n) :: v == u
  {
    if n > 0 {
      RepeatCounts(u, n - 1);
    }
  }

  /** There are as many SIM rows as units in the basket, each for the tariff of an item and a provider
      the backend supports. */
  lemma {:induction false} OneRowPerUnit(items: seq<Item>)
    requires forall item | item in items :: Sellable(item)
    ensures |UnitsOf(items)| == Units(items)
    ensures forall u | u in UnitsOf(items) ::
              Supported(u.provider) && exists item | item in items :: item.quantity > 0 && UnitOf(item) == u
  {
    if items != [] {
      var rest, last := items[..|items| - 1], items[|items| - 1];
      OneRowPerUnit(rest);
      RepeatCounts(UnitOf(last), last.quantity);
      forall u | u in UnitsOf(items)
        ensures Supported(u.provider) && exists item | item in items :: item.quantity > 0 && UnitOf(item) == u
      {
        if u in Repeat(UnitOf(last), last.quantity) {
          assert last in items && UnitOf(last) == u;
        } else {
          assert u in UnitsOf(rest);
          var item :| item in rest && item.quantity > 0 && UnitOf(item) == u;
          assert item in items;
        }
      }
    }
  }

  // How many units of this kind the basket asks for.
  function Ordered(items: seq<Item>, u: Unit): nat {
    if items == [] then 0
    else
      var last := items[|items| - 1];
      Ordered(items[..|items| - 1], u)
      + if last.tariff.Some? && last.tariff.value.id == u.tariff && last.tariff.value.provider == Some(u.provider)
           && last.quantity > 0 then last.quantity else 0
  }

  lemma {:induction false} RepeatHas(v: Unit, n: int, u: Unit)
    ensures multiset(Repeat(v, n))[u] == if v == u && n > 0 then n else 0
  {
    if n > 0 {
      RepeatHas(v, n - 1, u);
    }
  }

  /** There are exactly as many SIM rows of each kind as the basket asks for. */
  lemma {:induction false} UnitsAsOrdered(items: seq<Item>, u: Unit)
    requires forall item | item in items :: Sellable(item)
    ensures multiset(UnitsOf(items))[u] == Ordered(items, u)
  {
    if items != [] {
      var last := items[|items| - 1];
      UnitsAsOrdered(items[..|items| - 1], u);
      RepeatHas(UnitOf(last), last.quantity, u);
    }
  }
}
