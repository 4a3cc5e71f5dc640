/**
  OrderSent, the variant split into helpers: the parameter map is checked
  for the two keys and their values before anything is read, then the order
  model, the positions and the result map are built by separate helpers.
*/
module OrderSentCode2 {
  import opened Wrappers
  import opened Domain
  import opened OrderSentModel

  const PARAMETERS_MISSING := "Required parameters are missing: 'order' and 'tradeItems' must be provided."
  const PARAMETERS_NULL := "Parameters cannot be null: 'order' and 'tradeItems' must have values."

  /**
    validateParameters: a null map or a missing key is one error, a key mapped
    to null another; the exception, or None when both values are present.
  */
  function ValidateParameters(parameters: Option<Parameters>): (r: Option<JavaException>)
    ensures r.None? <==> parameters.Some? && parameters.value.order.Present? && parameters.value.tradeItems.Present?
    ensures r == Some(IllegalArgument(PARAMETERS_MISSING)) <==>
      parameters.None? || parameters.value.order.Absent? || parameters.value.tradeItems.Absent?
    ensures r == Some(IllegalArgument(PARAMETERS_NULL)) <==>
      && parameters.Some? && !parameters.value.order.Absent? && !parameters.value.tradeItems.Absent?
      && (parameters.value.order.Null? || parameters.value.tradeItems.Null?)
    ensures r.Some? ==> r.value.IllegalArgument?
  {
    if parameters.None? || parameters.value.order.Absent? || parameters.value.tradeItems.Absent? then
      Some(IllegalArgument(PARAMETERS_MISSING))
    else if parameters.value.order.Null? || parameters.value.tradeItems.Null? then
      Some(IllegalArgument(PARAMETERS_NULL))
    else None
  }

  /** createOrderModel: null for no trade items, else filled from the first. */
  function CreateOrderModel(tradeItems: seq<RowTradeItem>): (r: Option<FilledModel>)
    ensures IsOrderModelFor(r, tradeItems)
  {
    if tradeItems == [] then None else Some(FilledFrom(tradeItems[0].rowOrderPosition))
  }

  /** createPositionModel: one item of the order position. */
  function CreatePositionModel(rowOrderPosition: RowOrderPosition): (r: PositionSentModel)
    ensures IsPositionFor(r, rowOrderPosition)
  {
    PositionSentModel(1, rowOrderPosition.gtin13, rowOrderPosition.priceGross, rowOrderPosition.name)
  }

  /** createPositionModels: the list built up one position per trade item. */
  method CreatePositionModels(tradeItems: seq<RowTradeItem>) returns (positions: seq<PositionSentModel>)
    ensures ArePositionsFor(positions, tradeItems)
  {
    positions := [];
    for i := 0 to |tradeItems|
      invariant ArePositionsFor(positions, tradeItems[..i])
    {
      var rowOrderPosition := tradeItems[i].rowOrderPosition;
      positions := positions + [CreatePositionModel(rowOrderPosition)];
    }
    assert tradeItems[..|tradeItems|] == tradeItems;
  }

  /** populateResultMap: the four entries put into `resultMap`. */
  function PopulateResultMap(resultMap: map<string, ModelValue>, order: RowOrder,
                             orderModel: Option<FilledModel>, positions: seq<PositionSentModel>): (m: map<string, ModelValue>)
    ensures m.Keys == resultMap.Keys + {ORDER_KEY, POSITIONS_KEY, PLATFORM_ACCOUNT_ID_KEY, RESELLER_ID_KEY}
    ensures m[ORDER_KEY] == OrderValue(orderModel) && m[POSITIONS_KEY] == PositionsValue(positions)
    ensures m[PLATFORM_ACCOUNT_ID_KEY] == IdValue(order.platformAccountId)
    ensures m[RESELLER_ID_KEY] == IdValue(order.resellerId)
    ensures forall k :: k in resultMap && k !in {ORDER_KEY, POSITIONS_KEY, PLATFORM_ACCOUNT_ID_KEY, RESELLER_ID_KEY} ==>
      m[k] == resultMap[k]
  {
    resultMap[ORDER_KEY := OrderValue(orderModel)]
             [POSITIONS_KEY := PositionsValue(positions)]
             [PLATFORM_ACCOUNT_ID_KEY := IdValue(order.platformAccountId)]
             [RESELLER_ID_KEY := IdValue(order.resellerId)]
  }

  /** generateModel: the order-sent model, or the IllegalArgumentException validation raises. */
  method GenerateModel(parameters: Option<Parameters>) returns (r: Result<map<string, ModelValue>, JavaException>)
    ensures r.Failure? <==> ValidateParameters(parameters).Some?
    ensures r.Failure? ==> r.error == ValidateParameters(parameters).value
    ensures r.Success? ==>
      IsOrderSentModel(parameters.value.order.value, parameters.value.tradeItems.value, r.value)
  {
    var e := ValidateParameters(parameters);
    if e.Some? {
      return Failure(e.value);
    }
    var order := parameters.value.order.value;
    var tradeItems := parameters.value.tradeItems.value;
    var orderModel := CreateOrderModel(tradeItems);
    var positions := CreatePositionModels(tradeItems);
    var resultMap := PopulateResultMap(map[], order, orderModel, positions);
    return Success(resultMap);
  }
}
