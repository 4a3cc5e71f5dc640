/**
  The records the model generators read from the shop database and the
  exceptions they raise. The database rows are plain values here: only the
  fields the generators read are kept.
*/
module Domain {

  type Gtin13 = string

  /** RowOrderPositionType: only ARTICLE and SHIPPING are told apart by the generators. */
  datatype RowOrderPositionType = ARTICLE | SHIPPING | Other(name: string)

  datatype RowOrderPosition = RowOrderPosition(
    gtin13: Gtin13,
    name: string,
    priceGross: real,
    rowOrderPositionType: RowOrderPositionType)

  /** A traded item; the generators only follow it to its order position. */
  datatype RowTradeItem = RowTradeItem(rowOrderPosition: RowOrderPosition)

  /**
    An order with its positions; `platformAccountId` and `resellerId` stand for
    `getRowPlatformAccount().getId()` and
    `getRowPlatformAccount().getRowReseller().getId()`.
  */
  datatype RowOrder = RowOrder(
    rowsOrderPosition: seq<RowOrderPosition>,
    platformAccountId: int,
    resellerId: int)

  /** One entry of the named-parameter map: no such key, a key mapped to null, or a value. */
  datatype Arg<+T> = Absent | Null | Present(value: T)

  /**
    The named-parameter map `Map<String, Object>` given to `generateModel`,
    with the entries under the keys "order", "tradeItems" and
    "customerFeedback" already cast to their types.
  */
  datatype Parameters = Parameters(
    order: Arg<RowOrder>,
    tradeItems: Arg<seq<RowTradeItem>>,
    customerFeedback: Arg<RowOrder>)

  /** The Java exceptions the core raises. */
  datatype JavaException =
    | IllegalArgument(message: string)
    | NullPointer
    | ArithmeticException
}
