/**
  The order-sent mail model that all three OrderSent generators build: an
  "order" entry filled from the first trade item, one "positions" entry per
  trade item, and the two account ids. `IsOrderSentModel` says what a correct
  result is; it admits exactly one map, so any two generators that establish
  it return the same map.
*/
module OrderSentModel {
  import opened Wrappers
  import opened Domain

  /** A PositionSentModel as the generators set it up: quantity, GTIN-13, single price and name. */
  datatype PositionSentModel = PositionSentModel(quantity: int, gtin13: Gtin13, singlePrice: real, name: string)

  /**
    A PositionSentModel after `fill(position)`. What `fill` copies is not
    part of this model: the filled model is determined by the position alone.
  */
  datatype FilledModel = FilledFrom(position: RowOrderPosition)

  /** A value of the result map; the "order" entry is null (None) for no trade items. */
  datatype ModelValue =
    | OrderValue(orderModel: Option<FilledModel>)
    | PositionsValue(positions: seq<PositionSentModel>)
    | IdValue(id: int)

  const ORDER_KEY := "order"
  const POSITIONS_KEY := "positions"
  const PLATFORM_ACCOUNT_ID_KEY := "platformAccountId"
  const RESELLER_ID_KEY := "resellerId"

  /** `m` is the position of a single item of the order position `p`. */
  ghost predicate IsPositionFor(m: PositionSentModel, p: RowOrderPosition)
  {
    m.quantity == 1 && m.gtin13 == p.gtin13 && m.singlePrice == p.priceGross && m.name == p.name
  }

  /** One position per trade item, in the order of the items, none merged. */
  ghost predicate ArePositionsFor(positions: seq<PositionSentModel>, items: seq<RowTradeItem>)
  {
    && |positions| == |items|
    && forall i :: 0 <= i < |items| ==> IsPositionFor(positions[i], items[i].rowOrderPosition)
  }

  /** The order model: null without trade items, else filled from the first item's position. */
  ghost predicate IsOrderModelFor(orderModel: Option<FilledModel>, items: seq<RowTradeItem>)
  {
    if items == [] then orderModel.None? else orderModel == Some(FilledFrom(items[0].rowOrderPosition))
  }

  /** `m` is the model generateModel returns for `order` and `items`. */
  ghost predicate IsOrderSentModel(order: RowOrder, items: seq<RowTradeItem>, m: map<string, ModelValue>)
  {
    && m.Keys == {ORDER_KEY, POSITIONS_KEY, PLATFORM_ACCOUNT_ID_KEY, RESELLER_ID_KEY}
    && m[ORDER_KEY].OrderValue? && IsOrderModelFor(m[ORDER_KEY].orderModel, items)
    && m[POSITIONS_KEY].PositionsValue? && ArePositionsFor(m[POSITIONS_KEY].positions, items)
    && m[PLATFORM_ACCOUNT_ID_KEY] == IdValue(order.platformAccountId)
    && m[RESELLER_ID_KEY] == IdValue(order.resellerId)
  }

  /** The positions are determined by the trade items. */
  lemma PositionsUnique(p1: seq<PositionSentModel>, p2: seq<PositionSentModel>, items: seq<RowTradeItem>)
    requires ArePositionsFor(p1, items) && ArePositionsFor(p2, items)
    ensures p1 == p2
  {
    assert forall i :: 0 <= i < |items| ==> p1[i] == p2[i];
  }

  /** IsOrderSentModel admits one map only: two results for the same inputs are equal. */
  lemma OrderSentModelUnique(order: RowOrder, items: seq<RowTradeItem>, m1: map<string, ModelValue>, m2: map<string, ModelValue>)
    requires IsOrderSentModel(order, items, m1) && IsOrderSentModel(order, items, m2)
    ensures m1 == m2
  {
    PositionsUnique(m1[POSITIONS_KEY].positions, m2[POSITIONS_KEY].positions, items);
    assert forall k :: k in m1.Keys ==> m1[k] == m2[k];
  }
}
