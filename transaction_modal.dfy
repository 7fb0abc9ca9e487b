/** createTransactionModal.js: the form behind "New Transaction". It keeps the three
    entered fields, validates them in a fixed order, upper-cases the symbol for the
    symbol verification service and closes with the verified symbol. */
module TransactionModal {
  import opened Js

  /** The first field found wrong, in the order symbol, quantity, amount. */
  datatype FieldError = EmptySymbol | EmptyQuantity | EmptyAmount

  /** The value the modal closes with. */
  datatype ModalResult = ModalResult(symbolTransaction: string, quantityTransaction: Num, amountTransaction: Num)

  /** validateFields: an empty symbol, then a quantity that is 0 or NaN, then an amount
      that is 0 or NaN; only the first failure is reported. A negative quantity or
      amount is truthy and passes. */
  function FirstInvalidField(symbol: string, quantity: Num, amount: Num): (r: Option<FieldError>)
    ensures r == Some(EmptySymbol) <==> symbol == ""
    ensures r == Some(EmptyQuantity) <==> symbol != "" && !Truthy(quantity)
    ensures r == Some(EmptyAmount) <==> symbol != "" && Truthy(quantity) && !Truthy(amount)
    ensures r == None <==> symbol != "" && Truthy(quantity) && Truthy(amount)
  {
    if symbol == "" then Some(EmptySymbol)
    else if !Truthy(quantity) then Some(EmptyQuantity)
    else if !Truthy(amount) then Some(EmptyAmount)
    else None
  }

  class CreateTransactionModal {
    var symbolTransaction: string
    var quantityTransaction: Num
    var amountTransaction: Num

    /** The untouched form: empty symbol, quantity and amount 0. It fails on the symbol. */
    constructor ()
      ensures symbolTransaction == "" && quantityTransaction == Finite(0.0) && amountTransaction == Finite(0.0)
      ensures FirstInvalidField(symbolTransaction, quantityTransaction, amountTransaction) == Some(EmptySymbol)
    {
      symbolTransaction := "";
      quantityTransaction := Finite(0.0);
      amountTransaction := Finite(0.0);
    }

    method HandleTokenSymbolChange(value: string)
      modifies this`symbolTransaction
      ensures symbolTransaction == value
    {
      symbolTransaction := value;
    }

    /** The input's text `value` is stored as `parseFloat(value)`; JavaScript's
        parseFloat reads an empty input as NaN, which validation then rejects. */
    method HandleQuantityChange(parseFloat: string -> Num, value: string)
      modifies this`quantityTransaction
      ensures quantityTransaction == parseFloat(value)
      ensures parseFloat(value).NaN? ==>
        FirstInvalidField(symbolTransaction, quantityTransaction, amountTransaction).Some?
    {
      quantityTransaction := parseFloat(value);
    }

    method HandleAmountChange(parseFloat: string -> Num, value: string)
      modifies this`amountTransaction
      ensures amountTransaction == parseFloat(value)
      ensures parseFloat(value).NaN? ==>
        FirstInvalidField(symbolTransaction, quantityTransaction, amountTransaction).Some?
    {
      amountTransaction := parseFloat(value);
    }

    /** validateFields: true (invalid) exactly when a field fails, with the first failure. */
    method ValidateFields() returns (invalid: bool, error: Option<FieldError>)
      ensures invalid <==> symbolTransaction == "" || !Truthy(quantityTransaction) || !Truthy(amountTransaction)
      ensures invalid <==> error.Some?
      ensures error == FirstInvalidField(symbolTransaction, quantityTransaction, amountTransaction)
    {
      error := FirstInvalidField(symbolTransaction, quantityTransaction, amountTransaction);
      invalid := error.Some?;
    }

    /** handleTransactionSuccess: the service's symbol with the quantity and amount as entered. */
    method HandleTransactionSuccess(response: string) returns (closed: ModalResult)
      ensures closed.symbolTransaction == response
      ensures closed.quantityTransaction == quantityTransaction
      ensures closed.amountTransaction == amountTransaction
    {
      closed := ModalResult(response, quantityTransaction, amountTransaction);
    }

    /** handleAddTransaction, with the symbol verification service as `verify` (None
        when it rejects the symbol). `requested` is the symbol sent to the service, None
        when validation stopped the attempt before any call; `closed` is what the modal
        closes with, None while it stays open. */
    method HandleAddTransaction(verify: string -> Option<string>)
      returns (requested: Option<string>, closed: Option<ModalResult>)
      ensures requested.None? <==> FirstInvalidField(symbolTransaction, quantityTransaction, amountTransaction).Some?
      ensures requested.Some? ==> requested.value == ToUpperCase(symbolTransaction)
      ensures closed.Some? <==> requested.Some? && verify(requested.value).Some?
      ensures closed.Some? ==>
        closed.value == ModalResult(verify(requested.value).value, quantityTransaction, amountTransaction)
    {
      var invalid, _ := ValidateFields();
      if invalid {
        return None, None;
      }
      var symbol := ToUpperCase(symbolTransaction);
      requested := Some(symbol);
      match verify(symbol) {
        case Some(response) =>
          var result := HandleTransactionSuccess(response);
          closed := Some(result);
        case None =>
          closed := None;
      }
    }
  }
}
