/**
  OrderSent, the variant that reads both parameters first and checks them
  together: a missing key and a null value are the same error. The positions
  and the order model are built by two loops over the trade items.
*/
module OrderSentCode4 {
  import opened Wrappers
  import opened Domain
  import opened OrderSentModel
  import OrderSentCode2

  const PARAMETERS_MISSING := "Parameters are missing."

  /** `parameters.get(key)` yields null for a missing key as for a key mapped to null. */
  function Get<T>(a: Arg<T>): (r: Option<T>)
    ensures r.Some? <==> a.Present?
    ensures r.Some? ==> r.value == a.value
  {
    if a.Present? then Some(a.value) else None
  }

  /** validateParameters: both values must be non-null. */
  function ValidateParameters(order: Option<RowOrder>, tradeItems: Option<seq<RowTradeItem>>): (r: Option<JavaException>)
    ensures r.None? <==> order.Some? && tradeItems.Some?
    ensures r.Some? ==> r.value == IllegalArgument(PARAMETERS_MISSING)
  {
    if order.None? || tradeItems.None? then Some(IllegalArgument(PARAMETERS_MISSING)) else None
  }

  /** createPositionModels: one quantity-1 position per trade item, built in the loop. */
  method CreatePositionModels(tradeItems: seq<RowTradeItem>) returns (positions: seq<PositionSentModel>)
    ensures ArePositionsFor(positions, tradeItems)
  {
    positions := [];
    for i := 0 to |tradeItems|
      invariant ArePositionsFor(positions, tradeItems[..i])
    {
      var rowOrderPosition := tradeItems[i].rowOrderPosition;
      var orderPosition := PositionSentModel(1, rowOrderPosition.gtin13, rowOrderPosition.priceGross, rowOrderPosition.name);
      positions := positions + [orderPosition];
    }
    assert tradeItems[..|tradeItems|] == tradeItems;
  }

  /** createOrderModel: the loop fills the model on its first iteration and leaves it alone after. */
  method CreateOrderModel(tradeItems: seq<RowTradeItem>) returns (orderModel: Option<FilledModel>)
    ensures IsOrderModelFor(orderModel, tradeItems)
  {
    orderModel := None;
    for i := 0 to |tradeItems|
      invariant IsOrderModelFor(orderModel, tradeItems[..i])
    {
      var rowOrderPosition := tradeItems[i].rowOrderPosition;
      if orderModel.None? {
        orderModel := Some(FilledFrom(rowOrderPosition));
      }
    }
    assert tradeItems[..|tradeItems|] == tradeItems;
  }

  /**
    generateModel: a null parameter map fails on the first lookup; a null
    order or trade-item list is rejected; otherwise the order-sent model.
  */
  method GenerateModel(parameters: Option<Parameters>) returns (r: Result<map<string, ModelValue>, JavaException>)
    ensures parameters.None? ==> r == Failure(NullPointer)
    ensures parameters.Some? && !(parameters.value.order.Present? && parameters.value.tradeItems.Present?) ==>
      r == Failure(IllegalArgument(PARAMETERS_MISSING))
    ensures r.Success? <==> parameters.Some? && parameters.value.order.Present? && parameters.value.tradeItems.Present?
    ensures r.Success? ==>
      IsOrderSentModel(parameters.value.order.value, parameters.value.tradeItems.value, r.value)
  {
    if parameters.None? {
      return Failure(NullPointer);
    }
    var order := Get(parameters.value.order);
    var tradeItems := Get(parameters.value.tradeItems);
    var e := ValidateParameters(order, tradeItems);
    if e.Some? {
      return Failure(e.value);
    }
    var positions := CreatePositionModels(tradeItems.value);
    var orderModel := CreateOrderModel(tradeItems.value);
    var m := map[
      ORDER_KEY := OrderValue(orderModel),
      POSITIONS_KEY := PositionsValue(positions),
      PLATFORM_ACCOUNT_ID_KEY := IdValue(order.value.platformAccountId),
      RESELLER_ID_KEY := IdValue(order.value.resellerId)];
    return Success(m);
  }

  /**
    This variant and the one split into helpers accept the same parameters and
    return the same model for them; on the rest both raise an exception.
  */
  method AgreesWithCode2(parameters: Option<Parameters>) returns (r4: Result<map<string, ModelValue>, JavaException>,
                                                                r2: Result<map<string, ModelValue>, JavaException>)
    ensures r4.Success? <==> r2.Success?
    ensures r4.Success? ==> r4 == r2
  {
    r4 := GenerateModel(parameters);
    r2 := OrderSentCode2.GenerateModel(parameters);
    if r4.Success? {
      OrderSentModelUnique(parameters.value.order.value, parameters.value.tradeItems.value, r4.value, r2.value);
    }
  }
}
