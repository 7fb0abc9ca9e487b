/** The state of the CryptoInvestor component (cryptoInvestor.js) and the handlers that
    change it: the paginated asset table, the portfolio list, the selected portfolio
    and the sidebar highlight. Each remote call is left to the caller, who passes its
    result (None for a failure) to the method that models what the component does
    with it. */
module Investor {
  import opened Js
  import opened Paging
  import opened Valuation
  import opened Portfolios
  import opened TransactionModal
  import opened RowActions

  class CryptoInvestor {
    var priceList: seq<Row>
    var totalRecordCount: nat
    var numberOfPages: nat
    var pageNumber: int
    var startingPageIndex: int
    var endingPageIndex: int
    var dataTable: seq<Row>
    var isPaginator: bool
    var averageProfitAndLoss: string
    var indicator: Indicator
    var portfolios: seq<Portfolio>
    var selectedPortfolio: Selection
    var highlighted: set<string>

    /** The page count belongs to the current list, and at most one sidebar entry is
        highlighted. */
    ghost predicate Consistent()
      reads this
    {
      numberOfPages == PageCount(|priceList|) && |highlighted| <= 1
    }

    /** The table shows the current page of the current list. */
    ghost predicate Valid()
      reads this
    {
      && Consistent()
      && InRange(pageNumber, |priceList|)
      && dataTable == Page(priceList, pageNumber)
      && isPaginator == ShowsControls(|priceList|)
    }

    /** The initial state. `numberOfPages` starts out undefined in the component; it is
        only compared with before the first load, where 0 behaves the same. */
    constructor ()
      ensures Valid()
      ensures priceList == [] && dataTable == [] && pageNumber == 1 && !isPaginator
      ensures portfolios == [] && selectedPortfolio == Blank && highlighted == {}
      ensures averageProfitAndLoss == "0.00$"
      ensures startingPageIndex == 1 && endingPageIndex == 0
    {
      priceList := [];
      totalRecordCount := 0;
      numberOfPages := 0;
      pageNumber := 1;
      startingPageIndex := 1;
      endingPageIndex := 0;
      dataTable := [];
      isPaginator := false;
      averageProfitAndLoss := "0.00$";
      indicator := Neutral;
      portfolios := [];
      selectedPortfolio := Blank;
      highlighted := {};
    }

    /** displayRecordPerPage: clamp the requested page into [1, numberOfPages] (1 for an
        empty list), show that page's slice and decide on the controls. */
    method DisplayRecordPerPage(page: int)
      requires Consistent()
      modifies this`pageNumber, this`startingPageIndex, this`endingPageIndex, this`dataTable, this`isPaginator
      ensures Valid()
      ensures pageNumber == ClampPage(page, numberOfPages) && pageNumber >= 1
      ensures startingPageIndex == (pageNumber - 1) * PAGE_SIZE
      ensures endingPageIndex == Min(pageNumber * PAGE_SIZE, |priceList|)
      ensures 0 <= startingPageIndex <= endingPageIndex <= |priceList|
      ensures dataTable == priceList[startingPageIndex..endingPageIndex]
      ensures |dataTable| <= PAGE_SIZE && (dataTable == [] <==> priceList == [])
      ensures isPaginator <==> |priceList| >= PAGE_SIZE + 1
    {
      var p := Max(1, Min(page, numberOfPages));
      pageNumber := p;
      startingPageIndex := (p - 1) * PAGE_SIZE;
      endingPageIndex := Min(p * PAGE_SIZE, |priceList|);
      dataTable := Slice(priceList, startingPageIndex, endingPageIndex);
      isPaginator := |priceList| >= PAGE_SIZE + 1;
      PageShape(priceList, p);
    }

    /** prevHandler: one page back, or nothing at all on the first page. */
    method PrevHandler()
      requires Valid()
      modifies this`pageNumber, this`startingPageIndex, this`endingPageIndex, this`dataTable, this`isPaginator
      ensures Valid()
      ensures pageNumber == PrevPage(old(pageNumber))
      ensures old(pageNumber) > 1 ==> dataTable == Page(priceList, old(pageNumber) - 1)
      ensures old(pageNumber) > 1 ==>
        startingPageIndex == PageStart(pageNumber) && endingPageIndex == PageEnd(pageNumber, |priceList|)
      ensures old(pageNumber) <= 1 ==> unchanged(this)
    {
      if pageNumber > 1 {
        pageNumber := pageNumber - 1;
        DisplayRecordPerPage(pageNumber);
      }
    }

    /** nextHandler: one page forward, or nothing at all on the last page. */
    method NextHandler()
      requires Valid()
      modifies this`pageNumber, this`startingPageIndex, this`endingPageIndex, this`dataTable, this`isPaginator
      ensures Valid()
      ensures pageNumber == NextPage(old(pageNumber), numberOfPages)
      ensures old(pageNumber) < numberOfPages ==> dataTable == Page(priceList, old(pageNumber) + 1)
      ensures old(pageNumber) < numberOfPages ==>
        startingPageIndex == PageStart(pageNumber) && endingPageIndex == PageEnd(pageNumber, |priceList|)
      ensures old(pageNumber) >= numberOfPages ==> unchanged(this)
    {
      if pageNumber < numberOfPages {
        pageNumber := pageNumber + 1;
        DisplayRecordPerPage(pageNumber);
      }
    }

    /** calculateAverageProfitAndLoss: the summed P/L with four digits, and the arrow
        for its sign. */
    method CalculateAverageProfitAndLoss(fmt: NumberFormat, list: seq<Row>)
      modifies this`averageProfitAndLoss, this`indicator
      ensures old(Valid()) ==> Valid()
      ensures averageProfitAndLoss == Fixed(fmt, TotalProfitAndLoss(fmt, list), 4)
      ensures indicator == Indicate(fmt.parseFloat(averageProfitAndLoss))
    {
      averageProfitAndLoss := Fixed(fmt, TotalProfitAndLoss(fmt, list), 4);
      indicator := Indicate(fmt.parseFloat(averageProfitAndLoss));
    }

    /** The `.then` of loadPortfolioDetails: rebuild the rows from the server's
        aggregates, recount the pages, redisplay the page the user was on (clamped to
        the new count) and recompute the total. A failed call changes nothing. */
    method LoadPortfolioDetails(fmt: NumberFormat, result: Option<seq<Aggregate>>)
      requires Valid()
      modifies this`priceList, this`totalRecordCount, this`numberOfPages, this`pageNumber,
        this`startingPageIndex, this`endingPageIndex, this`dataTable, this`isPaginator,
        this`averageProfitAndLoss, this`indicator
      ensures Valid()
      ensures result.None? ==> unchanged(this)
      ensures result.Some? ==>
        && priceList == ToRows(fmt, result.value)
        && totalRecordCount == |result.value|
        && pageNumber == ClampPage(old(pageNumber), PageCount(|result.value|))
        && startingPageIndex == PageStart(pageNumber)
        && endingPageIndex == PageEnd(pageNumber, |priceList|)
        && averageProfitAndLoss == TotalText(fmt, priceList)
        && indicator == TotalIndicator(fmt, priceList)
    {
      if result.Some? {
        priceList := ToRows(fmt, result.value);
        totalRecordCount := |priceList|;
        numberOfPages := PageCount(totalRecordCount);
        DisplayRecordPerPage(pageNumber);
        CalculateAverageProfitAndLoss(fmt, priceList);
      }
    }

    /** updatePortfolioHighlight: toggle the highlighted entry (if any), then the entry
        of the selected id (if the sidebar shows one). */
    method UpdatePortfolioHighlight(id: Option<string>)
      requires |highlighted| <= 1
      modifies this`highlighted
      ensures highlighted == Highlight(old(highlighted), portfolios, id)
      ensures |highlighted| <= 1
    {
      if highlighted != {} {
        var previous :| previous in highlighted;
        SingletonOfOne(highlighted, previous);
        highlighted := Toggle(highlighted, previous);
      }
      var current := CurrentElement(portfolios, id);
      if current.Some? {
        highlighted := Toggle(highlighted, current.value);
      }
    }

    /** handleSelectPortfolio: select the first portfolio with the id (undefined when
        there is none) and move the highlight. The detail load it starts is
        LoadPortfolioDetails. */
    method HandleSelectPortfolio(id: Option<string>)
      requires Valid()
      modifies this`selectedPortfolio, this`highlighted
      ensures Valid()
      ensures selectedPortfolio == Find(portfolios, id)
      ensures highlighted == Highlight(old(highlighted), portfolios, id)
    {
      selectedPortfolio := Find(portfolios, id);
      UpdatePortfolioHighlight(id);
    }

    /** updateUI: with portfolios loaded, select the first one. */
    method UpdateUI()
      requires Valid()
      modifies this`selectedPortfolio, this`highlighted
      ensures Valid()
      ensures portfolios != [] ==>
        && selectedPortfolio == Chosen(portfolios[0])
        && highlighted == {portfolios[0].Id}
      ensures portfolios == [] ==> unchanged(this)
    {
      if |portfolios| > 0 {
        selectedPortfolio := Chosen(portfolios[0]);
        FindHead(portfolios);
        HandleSelectPortfolio(Some(selectedPortfolio.portfolio.Id));
      }
    }

    /** loadDetails: take the server's portfolio list (a failed call keeps the old
        one), then updateUI. This is also how the list is reloaded after a delete. */
    method LoadDetails(result: Option<seq<Portfolio>>)
      requires Valid()
      modifies this`portfolios, this`selectedPortfolio, this`highlighted
      ensures Valid()
      ensures portfolios == if result.Some? then result.value else old(portfolios)
      ensures portfolios != [] ==> selectedPortfolio == Chosen(portfolios[0]) && highlighted == {portfolios[0].Id}
      ensures portfolios == [] ==> selectedPortfolio == old(selectedPortfolio) && highlighted == old(highlighted)
    {
      if result.Some? {
        portfolios := result.value;
      }
      UpdateUI();
    }

    /** handleCreatePortfolio, given what createPortfolio returned (None when it
        failed): append the new portfolio, then in any case select the last portfolio
        of the list. With an empty list that is `undefined`, and reading its Id throws
        (`thrown`). */
    method HandleCreatePortfolio(created: Option<Portfolio>) returns (thrown: bool)
      requires Valid()
      modifies this`portfolios, this`selectedPortfolio, this`highlighted
      ensures Valid()
      ensures portfolios == old(portfolios) + (if created.Some? then [created.value] else [])
      ensures thrown <==> portfolios == []
      ensures thrown ==> selectedPortfolio == Undefined && highlighted == old(highlighted)
      ensures !thrown ==>
        && selectedPortfolio == Find(portfolios, Some(portfolios[|portfolios| - 1].Id))
        && highlighted == Highlight(old(highlighted), portfolios, Some(portfolios[|portfolios| - 1].Id))
      ensures created.Some? && created.value.Id !in RenderedIds(old(portfolios)) ==>
        selectedPortfolio == Chosen(created.value) && highlighted == {created.value.Id}
    {
      if created.Some? {
        portfolios := portfolios + [created.value];
      }
      if |portfolios| == 0 {
        selectedPortfolio := Undefined;
        return true;
      }
      thrown := false;
      var last := portfolios[|portfolios| - 1];
      selectedPortfolio := Chosen(last);
      if created.Some? && created.value.Id !in RenderedIds(old(portfolios)) {
        forall j | 0 <= j < |portfolios| && j != |portfolios| - 1
          ensures portfolios[j].Id != last.Id
        {
          assert portfolios[j] in old(portfolios);
        }
        FindUnique(portfolios, |portfolios| - 1);
      }
      HandleSelectPortfolio(Some(last.Id));
    }

    /** handleDelete: what happens before the server is asked. */
    method HandleDelete() returns (outcome: DeleteOutcome)
      ensures outcome.DeleteRequested? <==> selectedPortfolio.Chosen? && selectedPortfolio.portfolio.Id != ""
      ensures outcome.DeleteRequested? ==> outcome.id == selectedPortfolio.portfolio.Id
      ensures outcome.Thrown? <==> selectedPortfolio.Undefined?
    {
      outcome := DeleteRequest(selectedPortfolio);
    }

    /** handleCreateTransaction: the draft built from the modal's result. */
    method HandleCreateTransaction(result: Option<ModalResult>) returns (outcome: DraftOutcome)
      ensures outcome == DraftFor(result, selectedPortfolio)
      ensures outcome.Drafted? ==> outcome.draft.portfolioId == ReadId(selectedPortfolio).id
    {
      outcome := DraftFor(result, selectedPortfolio);
    }
  }
}
