/** The valuation rules of cryptoInvestor.js: each server aggregate becomes a display
    row (createdPriceListToDataTable, calculateProfitAndLoss), and the rows' profit/loss
    figures are summed and classified by sign (calculateAverageProfitAndLoss,
    updateProfitLossStyle). */
module Valuation {
  import opened Js

  /** `parseFloat` and `Number.prototype.toFixed`, left uninterpreted. */
  datatype NumberFormat = NumberFormat(parseFloat: string -> Num, toFixed: (real, nat) -> string)

  /** `x.toFixed(4)` holds no dollar sign and parses back to x: four digits are
      enough for x. This is asked only of the figures a lemma is about, never of
      every real, since a rounding formatter prints many reals alike. */
  predicate ReadsBack(fmt: NumberFormat, x: real) {
    '$' !in fmt.toFixed(x, 4) && fmt.parseFloat(fmt.toFixed(x, 4)) == Finite(x)
  }

  /** One row of the server's aggregate list: the raw text of price, net quantity and
      net cost for one asset of one portfolio. */
  datatype Aggregate = Aggregate(
    portfolioCurrencyId: string,
    symbol: string,
    price: string,
    totalQuantity: string,
    totalCost: string)

  /** A display row. `holdings` is the number the view prints. */
  datatype Row = Row(
    id: string,
    name: string,
    price: string,
    holdings: real,
    spending: string,
    average: string,
    profitAndLoss: string)

  /** `n.toFixed(digits)`; NaN prints as "NaN". */
  function Fixed(fmt: NumberFormat, n: Num, digits: nat): string {
    if n.NaN? then "NaN" else fmt.toFixed(n.value, digits)
  }

  /** Quantity and cost as the row uses them: `parseFloat(x) || 0`. */
  function Quantity(fmt: NumberFormat, item: Aggregate): real {
    OrZero(fmt.parseFloat(item.totalQuantity))
  }

  function Cost(fmt: NumberFormat, item: Aggregate): real {
    OrZero(fmt.parseFloat(item.totalCost))
  }

  /** Average buy price: cost spread over a positive quantity, otherwise none. */
  function AverageCost(qty: real, cost: real): (r: Option<real>)
    ensures r.Some? <==> qty > 0.0
    ensures r.Some? ==> r.value * qty == cost
  {
    if qty > 0.0 then Some(cost / qty) else None
  }

  /** The `average` column: "$" and four digits of the average, or "$0.00". */
  function AverageText(fmt: NumberFormat, item: Aggregate): string {
    match AverageCost(Quantity(fmt, item), Cost(fmt, item))
    case Some(a) => "$" + fmt.toFixed(a, 4)
    case None => "$0.00"
  }

  /** The guard of calculateProfitAndLoss: quantity, cost and price (dollar signs
      removed) all parse to numbers other than 0 and NaN. */
  predicate HasPosition(fmt: NumberFormat, item: Aggregate) {
    && Truthy(fmt.parseFloat(item.totalQuantity))
    && Truthy(fmt.parseFloat(item.totalCost))
    && Truthy(fmt.parseFloat(RemoveDollars(item.price)))
  }

  /** calculateProfitAndLoss before formatting: `(price - cost / qty) * qty` past the
      guard, nothing otherwise. Over the reals that is the market value less the cost. */
  function ProfitAndLoss(fmt: NumberFormat, item: Aggregate): (r: Option<real>)
    ensures r.Some? <==> HasPosition(fmt, item)
    ensures r.Some? ==>
      r.value == fmt.parseFloat(RemoveDollars(item.price)).value * fmt.parseFloat(item.totalQuantity).value
                 - fmt.parseFloat(item.totalCost).value
  {
    if !HasPosition(fmt, item) then None
    else
      var price := fmt.parseFloat(RemoveDollars(item.price)).value;
      var qty := fmt.parseFloat(item.totalQuantity).value;
      var cost := fmt.parseFloat(item.totalCost).value;
      assert (price - cost / qty) * qty == price * qty - cost;
      Some((price - cost / qty) * qty)
  }

  /** The `profitAndLoss` column: "$0.00" behind the guard, else "$" and four digits. */
  function ProfitAndLossText(fmt: NumberFormat, item: Aggregate): string {
    match ProfitAndLoss(fmt, item)
    case Some(v) => "$" + fmt.toFixed(v, 4)
    case None => "$0.00"
  }

  /** The row createdPriceListToDataTable builds for one aggregate. */
  function ToRow(fmt: NumberFormat, item: Aggregate): Row {
    Row(
      id := item.portfolioCurrencyId,
      name := item.symbol,
      price := "$" + Fixed(fmt, fmt.parseFloat(item.price), 2),
      holdings := Quantity(fmt, item),
      spending := "$" + fmt.toFixed(Cost(fmt, item), 4),
      average := AverageText(fmt, item),
      profitAndLoss := ProfitAndLossText(fmt, item))
  }

  /** createdPriceListToDataTable: `data.map(...)`, one row per aggregate. */
  function ToRows(fmt: NumberFormat, data: seq<Aggregate>): (rows: seq<Row>)
    ensures |rows| == |data|
  {
    if data == [] then [] else [ToRow(fmt, data[0])] + ToRows(fmt, data[1..])
  }

  /** The rows keep the order of the aggregates: row k is built from aggregate k, so
      it carries that aggregate's id and symbol. */
  lemma {:induction false} ToRowsAt(fmt: NumberFormat, data: seq<Aggregate>, k: nat)
    requires k < |data|
    ensures ToRows(fmt, data)[k] == ToRow(fmt, data[k])
    ensures ToRows(fmt, data)[k].id == data[k].portfolioCurrencyId
    ensures ToRows(fmt, data)[k].name == data[k].symbol
  {
    if k > 0 {
      ToRowsAt(fmt, data[1..], k - 1);
    }
  }

  /** The number a row's P/L cell reads back as: `parseFloat(profitAndLoss.replace(/\$/g, ''))`. */
  function RowValue(fmt: NumberFormat, row: Row): Num {
    fmt.parseFloat(RemoveDollars(row.profitAndLoss))
  }

  /** `values.reduce((total, value) => total + value, 0)`, folded from the left. */
  function Sum(xs: seq<Num>): Num {
    if xs == [] then Finite(0.0) else Add(Sum(xs[..|xs| - 1]), xs[|xs| - 1])
  }

  /** The sum is NaN exactly when one of its terms is. */
  lemma {:induction false} SumNaN(xs: seq<Num>)
    ensures Sum(xs).NaN? <==> exists i :: 0 <= i < |xs| && xs[i].NaN?
  {
    if xs != [] {
      var init := xs[..|xs| - 1];
      SumNaN(init);
      if exists i :: 0 <= i < |init| && init[i].NaN? {
        var i :| 0 <= i < |init| && init[i].NaN?;
        assert xs[i].NaN?;
      }
      if exists i :: 0 <= i < |xs| && xs[i].NaN? {
        var i :| 0 <= i < |xs| && xs[i].NaN?;
        if i < |xs| - 1 {
          assert init[i].NaN?;
        }
      }
    }
  }

  function RowValues(fmt: NumberFormat, rows: seq<Row>): (r: seq<Num>)
    ensures |r| == |rows|
    ensures forall i :: 0 <= i < |rows| ==> r[i] == RowValue(fmt, rows[i])
  {
    if rows == [] then [] else RowValues(fmt, rows[..|rows| - 1]) + [RowValue(fmt, rows[|rows| - 1])]
  }

  /** The portfolio-level figure before formatting. */
  function TotalProfitAndLoss(fmt: NumberFormat, rows: seq<Row>): Num {
    Sum(RowValues(fmt, rows))
  }

  /** `averageProfitAndLoss`: the total with four digits. */
  function TotalText(fmt: NumberFormat, rows: seq<Row>): string {
    Fixed(fmt, TotalProfitAndLoss(fmt, rows), 4)
  }

  /** The indicator updateProfitLossStyle shows. */
  datatype Indicator = Up | Down | Neutral

  /** `value > 0` / `value < 0` on the figure read back as a number; NaN compares false
      both ways and shows neither arrow. */
  function Indicate(n: Num): (r: Indicator)
    ensures r == Up <==> n.Finite? && n.value > 0.0
    ensures r == Down <==> n.Finite? && n.value < 0.0
    ensures r == Neutral <==> n.NaN? || n.value == 0.0
  {
    if n.NaN? then Neutral
    else if n.value > 0.0 then Up
    else if n.value < 0.0 then Down
    else Neutral
  }

  /** The indicator for a row list: the sign of the formatted total read back. */
  function TotalIndicator(fmt: NumberFormat, rows: seq<Row>): Indicator {
    Indicate(fmt.parseFloat(TotalText(fmt, rows)))
  }

  /** The profit or loss of one aggregate over the reals, 0 behind the guard. */
  function ExactProfitAndLoss(fmt: NumberFormat, item: Aggregate): real {
    match ProfitAndLoss(fmt, item)
    case Some(v) => v
    case None => 0.0
  }

  /** The sum of the exact figures, folded like Sum. */
  function ExactTotal(fmt: NumberFormat, data: seq<Aggregate>): real {
    if data == [] then 0.0
    else ExactTotal(fmt, data[..|data| - 1]) + ExactProfitAndLoss(fmt, data[|data| - 1])
  }

  /** The profit/loss cell of the aggregate's row can be read back exactly: "0.00"
      parses to 0, and the four-digit figure past the guard parses to itself. */
  predicate CellReadsBack(fmt: NumberFormat, item: Aggregate) {
    && fmt.parseFloat("0.00") == Finite(0.0)
    && (ProfitAndLoss(fmt, item).Some? ==> ReadsBack(fmt, ProfitAndLoss(fmt, item).value))
  }

  /** When the cell can be read back, a row's P/L cell parses to the exact profit or
      loss of its aggregate (0 behind the guard). */
  lemma RowReadsBack(fmt: NumberFormat, item: Aggregate)
    requires CellReadsBack(fmt, item)
    ensures RowValue(fmt, ToRow(fmt, item)) == Finite(ExactProfitAndLoss(fmt, item))
  {
    assert RemoveDollars("$0.00") == "0.00" by { StripCurrencyPrefix("0.00"); }
    match ProfitAndLoss(fmt, item) {
      case Some(v) => StripCurrencyPrefix(fmt.toFixed(v, 4));
      case None =>
    }
  }

  /** A row's average cell parses to cost / quantity, or to 0 when the quantity is not
      positive, provided those two figures read back. */
  lemma AverageReadsBack(fmt: NumberFormat, item: Aggregate)
    requires fmt.parseFloat("0.00") == Finite(0.0)
    requires AverageCost(Quantity(fmt, item), Cost(fmt, item)).Some? ==>
      ReadsBack(fmt, AverageCost(Quantity(fmt, item), Cost(fmt, item)).value)
    ensures fmt.parseFloat(RemoveDollars(ToRow(fmt, item).average)) ==
      match AverageCost(Quantity(fmt, item), Cost(fmt, item))
      case Some(a) => Finite(a)
      case None => Finite(0.0)
  {
    assert RemoveDollars("$0.00") == "0.00" by { StripCurrencyPrefix("0.00"); }
    match AverageCost(Quantity(fmt, item), Cost(fmt, item)) {
      case Some(a) => StripCurrencyPrefix(fmt.toFixed(a, 4));
      case None =>
    }
  }

  /** A zero quantity shows a zero average and a zero profit/loss. */
  lemma ZeroQuantityRow(fmt: NumberFormat, item: Aggregate)
    requires fmt.parseFloat(item.totalQuantity) == Finite(0.0)
    ensures ToRow(fmt, item).average == "$0.00"
    ensures ToRow(fmt, item).profitAndLoss == "$0.00"
    ensures ToRow(fmt, item).holdings == 0.0
  {
  }

  /** A negative quantity passes the P/L guard while its average shows 0. */
  lemma NegativeQuantityRow(fmt: NumberFormat, item: Aggregate)
    requires fmt.parseFloat(item.totalQuantity).Finite? && fmt.parseFloat(item.totalQuantity).value < 0.0
    requires Truthy(fmt.parseFloat(item.totalCost)) && Truthy(fmt.parseFloat(RemoveDollars(item.price)))
    ensures ToRow(fmt, item).average == "$0.00"
    ensures ProfitAndLoss(fmt, item).Some?
  {
  }

  /** Summing numbers that are pointwise the exact figures gives the exact total. */
  lemma {:induction false} SumOfExact(fmt: NumberFormat, values: seq<Num>, data: seq<Aggregate>)
    requires |values| == |data|
    requires forall i :: 0 <= i < |data| ==> values[i] == Finite(ExactProfitAndLoss(fmt, data[i]))
    ensures Sum(values) == Finite(ExactTotal(fmt, data))
  {
    if data != [] {
      var n := |data|;
      SumOfExact(fmt, values[..n - 1], data[..n - 1]);
    }
  }

  /** When every row's P/L cell reads back, the re-parsed total is the exact sum. */
  lemma RowValuesOfRows(fmt: NumberFormat, data: seq<Aggregate>)
    requires forall i :: 0 <= i < |data| ==> CellReadsBack(fmt, data[i])
    ensures TotalProfitAndLoss(fmt, ToRows(fmt, data)) == Finite(ExactTotal(fmt, data))
  {
    var values := RowValues(fmt, ToRows(fmt, data));
    forall i | 0 <= i < |data|
      ensures values[i] == Finite(ExactProfitAndLoss(fmt, data[i]))
    {
      ToRowsAt(fmt, data, i);
      RowReadsBack(fmt, data[i]);
    }
    SumOfExact(fmt, values, data);
  }

  /** When every row's P/L cell and the four-digit total read back, the portfolio
      figure is the exact sum of the rows' profit and loss, and its indicator is that
      sum's sign. */
  lemma TotalIsExactSum(fmt: NumberFormat, data: seq<Aggregate>)
    requires forall i :: 0 <= i < |data| ==> CellReadsBack(fmt, data[i])
    requires ReadsBack(fmt, ExactTotal(fmt, data))
    ensures TotalProfitAndLoss(fmt, ToRows(fmt, data)) == Finite(ExactTotal(fmt, data))
    ensures TotalIndicator(fmt, ToRows(fmt, data)) == Up <==> ExactTotal(fmt, data) > 0.0
    ensures TotalIndicator(fmt, ToRows(fmt, data)) == Down <==> ExactTotal(fmt, data) < 0.0
    ensures TotalIndicator(fmt, ToRows(fmt, data)) == Neutral <==> ExactTotal(fmt, data) == 0.0
  {
    RowValuesOfRows(fmt, data);
  }

  /** One row whose P/L cell does not read back as a number makes the whole figure
      NaN, which shows neither arrow. */
  lemma NaNRowPoisonsTotal(fmt: NumberFormat, rows: seq<Row>, k: nat)
    requires k < |rows| && RowValue(fmt, rows[k]).NaN?
    requires fmt.parseFloat("NaN") == NaN
    ensures TotalProfitAndLoss(fmt, rows) == NaN
    ensures TotalIndicator(fmt, rows) == Neutral
  {
    assert RowValues(fmt, rows)[k].NaN?;
    SumNaN(RowValues(fmt, rows));
  }
}
