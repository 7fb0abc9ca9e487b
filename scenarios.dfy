/** Client scenarios that use the two components only through their contracts. */
module Scenarios {
  import opened Js
  import opened Paging
  import opened Valuation
  import opened Portfolios
  import opened TransactionModal
  import opened Investor

  /** Creating the first portfolio on a fresh dashboard: the list holds exactly that
      portfolio, it is the selection, and it is the one highlighted entry. */
  method CreateFirstPortfolio(main: Portfolio)
    returns (portfolios: seq<Portfolio>, selected: Selection, highlighted: set<string>)
    ensures portfolios == [main]
    ensures selected == Chosen(main)
    ensures highlighted == {main.Id}
  {
    var dashboard := new CryptoInvestor();
    var thrown := dashboard.HandleCreatePortfolio(Some(main));
    portfolios, selected, highlighted := dashboard.portfolios, dashboard.selectedPortfolio, dashboard.highlighted;
  }

  /** Asking for page 5 of 25 rows shows page 3, the last five rows, with controls. */
  method PageFiveOfTwentyFive(fmt: NumberFormat, data: seq<Aggregate>)
    returns (page: int, shown: seq<Row>, controls: bool)
    requires |data| == 25
    ensures page == 3
    ensures shown == ToRows(fmt, data)[20..25]
    ensures controls
  {
    var dashboard := new CryptoInvestor();
    dashboard.LoadPortfolioDetails(fmt, Some(data));
    dashboard.DisplayRecordPerPage(5);
    page, shown, controls := dashboard.pageNumber, dashboard.dataTable, dashboard.isPaginator;
  }

  /** A Buy of "btc" with quantity "0" is stopped by validation: the symbol service is
      never asked and the modal stays open. */
  method ZeroQuantityRejected(parseFloat: string -> Num, verify: string -> Option<string>, amount: string)
    returns (requested: Option<string>, closed: Option<ModalResult>)
    requires parseFloat("0") == Finite(0.0)
    ensures requested == None && closed == None
  {
    var modal := new CreateTransactionModal();
    modal.HandleTokenSymbolChange("btc");
    modal.HandleQuantityChange(parseFloat, "0");
    modal.HandleAmountChange(parseFloat, amount);
    requested, closed := modal.HandleAddTransaction(verify);
  }

  /** A quantity input left empty parses to NaN and is rejected like 0, whatever the
      amount: the symbol service is never asked and the modal stays open. */
  method EmptyQuantityRejected(parseFloat: string -> Num, verify: string -> Option<string>, amount: string)
    returns (requested: Option<string>, closed: Option<ModalResult>)
    requires parseFloat("") == NaN
    ensures requested == None && closed == None
  {
    var modal := new CreateTransactionModal();
    modal.HandleTokenSymbolChange("btc");
    modal.HandleQuantityChange(parseFloat, "");
    modal.HandleAmountChange(parseFloat, amount);
    requested, closed := modal.HandleAddTransaction(verify);
  }

  /** A filled-in form sends the upper-cased symbol and closes with the service's
      answer and the quantity and amount as entered, negative ones included. */
  method FilledFormCloses(parseFloat: string -> Num, verify: string -> Option<string>)
    returns (requested: Option<string>, closed: Option<ModalResult>)
    requires parseFloat("-2") == Finite(-2.0) && parseFloat("150") == Finite(150.0)
    requires verify("BTC") == Some("BTC")
    ensures requested == Some("BTC")
    ensures closed == Some(ModalResult("BTC", Finite(-2.0), Finite(150.0)))
  {
    var modal := new CreateTransactionModal();
    modal.HandleTokenSymbolChange("btc");
    modal.HandleQuantityChange(parseFloat, "-2");
    modal.HandleAmountChange(parseFloat, "150");
    requested, closed := modal.HandleAddTransaction(verify);
    assert ToUpperCase("btc") == "BTC";
  }

  /** A formatter that rounds everything but 0.5 to "0", so it prints many reals alike,
      still meets the read-back hypotheses for one lot bought at 1.5 and priced at 2:
      the portfolio figure is the exact gain of 0.5, shown with the up arrow. */
  lemma OneLotInProfit()
    ensures var fmt := NumberFormat(
        s => if s == "2" then Finite(2.0) else if s == "1" then Finite(1.0)
             else if s == "1.5" then Finite(1.5) else if s == "0.5000" then Finite(0.5)
             else if s == "0.00" then Finite(0.0) else NaN,
        (x, d) => if x == 0.5 && d == 4 then "0.5000" else "0");
      var rows := ToRows(fmt, [Aggregate("a1", "BTC", "2", "1", "1.5")]);
      && TotalProfitAndLoss(fmt, rows) == Finite(0.5)
      && TotalIndicator(fmt, rows) == Up
  {
    var fmt := NumberFormat(
      s => if s == "2" then Finite(2.0) else if s == "1" then Finite(1.0)
           else if s == "1.5" then Finite(1.5) else if s == "0.5000" then Finite(0.5)
           else if s == "0.00" then Finite(0.0) else NaN,
      (x, d) => if x == 0.5 && d == 4 then "0.5000" else "0");
    var data := [Aggregate("a1", "BTC", "2", "1", "1.5")];
    assert RemoveDollars("2") == "2";
    assert ProfitAndLoss(fmt, data[0]) == Some(0.5);
    assert ExactTotal(fmt, data) == 0.5 by {
      assert data[..0] == [];
    }
    TotalIsExactSum(fmt, data);
  }
}
