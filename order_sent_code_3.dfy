/**
  OrderSent, the single-loop variant: one pass over the trade items fills the
  order model on the first item and appends a position for every item.
*/
module OrderSentCode3 {
  import opened Wrappers
  import opened Domain
  import opened OrderSentModel
  import OrderSentCode4

  const PARAMETERS_MISSING := "Parameters are missing."

  /** generateModel: the parameter checks, then the one combined loop. */
  method GenerateModel(parameters: Option<Parameters>) returns (r: Result<map<string, ModelValue>, JavaException>)
    ensures parameters.None? ==> r == Failure(NullPointer)
    ensures parameters.Some? && !(parameters.value.order.Present? && parameters.value.tradeItems.Present?) ==>
      r == Failure(IllegalArgument(PARAMETERS_MISSING))
    ensures r.Success? <==> parameters.Some? && parameters.value.order.Present? && parameters.value.tradeItems.Present?
    ensures r.Success? ==>
      IsOrderSentModel(parameters.value.order.value, parameters.value.tradeItems.value, r.value)
  {
    if parameters.None? {
      return Failure(NullPointer);
    }
    if !parameters.value.order.Present? || !parameters.value.tradeItems.Present? {
      return Failure(IllegalArgument(PARAMETERS_MISSING));
    }
    var order := parameters.value.order.value;
    var tradeItems := parameters.value.tradeItems.value;
    var positions: seq<PositionSentModel> := [];
    var orderModel: Option<FilledModel> := None;
    for i := 0 to |tradeItems|
      invariant IsOrderModelFor(orderModel, tradeItems[..i])
      invariant ArePositionsFor(positions, tradeItems[..i])
    {
      var rowOrderPosition := tradeItems[i].rowOrderPosition;
      if orderModel.None? {
        orderModel := Some(FilledFrom(rowOrderPosition));
      }
      var orderposition := PositionSentModel(1, rowOrderPosition.gtin13, rowOrderPosition.priceGross, rowOrderPosition.name);
      positions := positions + [orderposition];
    }
    assert tradeItems[..|tradeItems|] == tradeItems;
    var m := map[
      ORDER_KEY := OrderValue(orderModel),
      POSITIONS_KEY := PositionsValue(positions),
      PLATFORM_ACCOUNT_ID_KEY := IdValue(order.platformAccountId),
      RESELLER_ID_KEY := IdValue(order.resellerId)];
    return Success(m);
  }

  /** The single loop and the two loops give the same result, failures included. */
  method AgreesWithCode4(parameters: Option<Parameters>) returns (r3: Result<map<string, ModelValue>, JavaException>,
                                                                r4: Result<map<string, ModelValue>, JavaException>)
    ensures r3 == r4
  {
    r3 := GenerateModel(parameters);
    r4 := OrderSentCode4.GenerateModel(parameters);
    if r3.Success? {
      OrderSentModelUnique(parameters.value.order.value, parameters.value.tradeItems.value, r3.value, r4.value);
    }
  }
}
