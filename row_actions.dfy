/** The transaction entry points of cryptoInvestor.js: the Buy/Sell row actions of
    the asset table (handleRowAction, createTransactionDetails) and the draft built
    from the "New Transaction" modal (handleCreateTransaction). */
module RowActions {
  import opened Js
  import opened Valuation
  import opened Portfolios
  import opened TransactionModal

  datatype TransactionType = Buy | Sell

  /** What the Buy/Sell modal is opened with. */
  datatype TransactionDetails = TransactionDetails(
    id: string,
    name: string,
    kind: TransactionType,
    variant: string,
    price: string,
    holdings: real,
    average: string,
    profitAndLoss: string)

  /** createTransactionDetails: the row's identity and holdings, with every dollar sign
      removed from its price, average and profit/loss. */
  function CreateTransactionDetails(row: Row, kind: TransactionType, variant: string): (d: TransactionDetails)
    ensures d.id == row.id && d.name == row.name && d.holdings == row.holdings
    ensures d.kind == kind && d.variant == variant
    ensures d.price == RemoveDollars(row.price)
    ensures d.average == RemoveDollars(row.average)
    ensures d.profitAndLoss == RemoveDollars(row.profitAndLoss)
    ensures '$' !in d.price && '$' !in d.average && '$' !in d.profitAndLoss
    ensures '$' !in row.price ==> d.price == row.price
  {
    RemoveDollarsFixpoint(row.price);
    TransactionDetails(
      id := row.id,
      name := row.name,
      kind := kind,
      variant := variant,
      price := RemoveDollars(row.price),
      holdings := row.holdings,
      average := RemoveDollars(row.average),
      profitAndLoss := RemoveDollars(row.profitAndLoss))
  }

  /** handleRowAction: `buy_token` opens a Buy, `sell_token` a Sell; any other action
      name does nothing. */
  function HandleRowAction(action: string, row: Row): (r: Option<TransactionDetails>)
    ensures r.Some? <==> action == "buy_token" || action == "sell_token"
    ensures action == "buy_token" ==> r.value.kind == Buy && r.value.variant == "success"
    ensures action == "sell_token" ==> r.value.kind == Sell && r.value.variant == "destructive"
    ensures action == "buy_token" ==> r == Some(CreateTransactionDetails(row, Buy, "success"))
    ensures action == "sell_token" ==> r == Some(CreateTransactionDetails(row, Sell, "destructive"))
    ensures r.Some? ==> r.value.id == row.id && r.value.name == row.name && r.value.holdings == row.holdings
  {
    if action == "buy_token" then Some(CreateTransactionDetails(row, Buy, "success"))
    else if action == "sell_token" then Some(CreateTransactionDetails(row, Sell, "destructive"))
    else None
  }

  /** For a row of the asset table, the Buy/Sell details carry the two-digit price
      without its currency sign; when the row's P/L cell reads back, the profit/loss
      they carry parses to the exact profit or loss of the aggregate. */
  lemma DetailsOfTableRow(fmt: NumberFormat, item: Aggregate, kind: TransactionType, variant: string)
    ensures CreateTransactionDetails(ToRow(fmt, item), kind, variant).price
      == RemoveDollars(Fixed(fmt, fmt.parseFloat(item.price), 2))
    ensures CellReadsBack(fmt, item) ==>
      fmt.parseFloat(CreateTransactionDetails(ToRow(fmt, item), kind, variant).profitAndLoss)
        == Finite(ExactProfitAndLoss(fmt, item))
  {
    RemoveDollarsAppend("$", Fixed(fmt, fmt.parseFloat(item.price), 2));
    if CellReadsBack(fmt, item) {
      RowReadsBack(fmt, item);
    }
  }

  /** The draft handleCreateTransaction hands to createTransaction. */
  datatype TransactionDraft = TransactionDraft(
    portfolioId: Option<string>,
    typeTransaction: TransactionType,
    quantityTransaction: Num,
    amountTransaction: Num,
    symbol: string)

  /** No draft when the modal closed without a result (the "Incorrectly entered
      parameters" error), a TypeError when no portfolio object is selected, else a
      Buy draft for the selected portfolio with the modal's fields. */
  datatype DraftOutcome = Drafted(draft: TransactionDraft) | NoResult | DraftThrown

  function DraftFor(result: Option<ModalResult>, selected: Selection): (r: DraftOutcome)
    ensures r == NoResult <==> result.None?
    ensures r == DraftThrown <==> result.Some? && selected.Undefined?
    ensures r.Drafted? ==>
      && r.draft.typeTransaction == Buy
      && r.draft.symbol == result.value.symbolTransaction
      && r.draft.quantityTransaction == result.value.quantityTransaction
      && r.draft.amountTransaction == result.value.amountTransaction
      && r.draft.portfolioId == (if selected.Chosen? then Some(selected.portfolio.Id) else None)
  {
    match result
    case None => NoResult
    case Some(res) =>
      match ReadId(selected)
      case TypeError => DraftThrown
      case Read(id) =>
        Drafted(TransactionDraft(id, Buy, res.quantityTransaction, res.amountTransaction, res.symbolTransaction))
  }
}
