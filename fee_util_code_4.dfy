/**
  FeeUtil, the hardened variant: every input is checked for null, the
  quantity must be positive and the price sum must not be negative, each
  failure raising IllegalArgumentException before any arithmetic is done.
  A `None` argument is a Java null.
*/
module FeeUtilCode4 {
  import opened Wrappers
  import opened Decimal
  import opened Domain
  import opened Fees

  const SHIP_PRICE_NULL := "Shipping price cannot be null"
  const ARTICLE_PRICE_NULL := "Article price cannot be null"
  const FEE_TOTAL_NULL := "Total fee cannot be null"
  const QUANTITY_NOT_POSITIVE := "Quantity must be positive"
  /** The source puts the offending sum between the words; its rendering is not modelled. */
  const PRICE_SUM_NEGATIVE := "Price sum cannot be negative"

  /** The exception validateInputs raises, checking the four inputs in order, or None. */
  function ValidateInputs(priceShip: Option<real>, priceArticle: Option<real>,
                          feeTotal: Option<real>, quantity: Option<real>): (r: Option<JavaException>)
    ensures r.None? <==> priceShip.Some? && priceArticle.Some? && feeTotal.Some? && quantity.Some? && quantity.value > 0.0
    ensures r.Some? ==> r.value.IllegalArgument?
    ensures priceShip.Some? && priceArticle.Some? && feeTotal.Some? && (quantity.None? || quantity.value <= 0.0) ==>
      r == Some(IllegalArgument(QUANTITY_NOT_POSITIVE))
  {
    if priceShip.None? then Some(IllegalArgument(SHIP_PRICE_NULL))
    else if priceArticle.None? then Some(IllegalArgument(ARTICLE_PRICE_NULL))
    else if feeTotal.None? then Some(IllegalArgument(FEE_TOTAL_NULL))
    else if quantity.None? || quantity.value <= 0.0 then Some(IllegalArgument(QUANTITY_NOT_POSITIVE))
    else None
  }

  /** A price sum that is not positive: an exception when negative, zero fees when zero. */
  function HandleZeroOrNegativePrice(priceSum: real): (r: Result<Fee, JavaException>)
    requires priceSum <= 0.0
    ensures r.Failure? <==> priceSum < 0.0
    ensures r.Failure? ==> r.error == IllegalArgument(PRICE_SUM_NEGATIVE)
    ensures r.Success? ==> r.value.shipFee == 0.0 && r.value.articleFee == 0.0
  {
    if priceSum < 0.0 then Failure(IllegalArgument(PRICE_SUM_NEGATIVE))
    else Success(Fee(0.0, 0.0))
  }

  /** The proportional split of calculateFees. */
  function CalculateFees(priceShip: real, priceSum: real, feeTotal: real, quantity: real): (fee: Fee)
    requires priceSum != 0.0 && quantity != 0.0
    ensures IsProportionalSplit(fee, priceShip, priceSum, feeTotal, quantity)
  {
    var shipProportion := Divide(priceShip, priceSum, DIVISION_SCALE);
    var shipFee := feeTotal * shipProportion;
    var articleFee := feeTotal - shipFee;
    var result := Fee(Divide(shipFee, quantity, FEE_SCALE), Divide(articleFee, quantity, FEE_SCALE));
    assert SplitsBy(result, priceShip, priceSum, feeTotal, quantity, shipProportion);
    result
  }

  /** calculateShipAndArticleFeePerUnit: the Fee, or the IllegalArgumentException it throws. */
  function CalculateShipAndArticleFeePerUnit(priceShip: Option<real>, priceArticle: Option<real>,
                                             feeTotal: Option<real>, quantity: Option<real>): (r: Result<Fee, JavaException>)
    ensures priceShip.None? ==> r == Failure(IllegalArgument(SHIP_PRICE_NULL))
    ensures priceShip.Some? && priceArticle.None? ==> r == Failure(IllegalArgument(ARTICLE_PRICE_NULL))
    ensures priceShip.Some? && priceArticle.Some? && feeTotal.None? ==> r == Failure(IllegalArgument(FEE_TOTAL_NULL))
    ensures r.Failure? <==>
      || priceShip.None? || priceArticle.None? || feeTotal.None? || quantity.None? || quantity.value <= 0.0
      || priceShip.value + priceArticle.value < 0.0
    ensures r.Failure? ==> r.error.IllegalArgument?
    ensures r.Success? ==>
      var sum := priceShip.value + priceArticle.value;
      && (sum == 0.0 ==> r.value == Fee(0.0, 0.0))
      && (sum != 0.0 ==> IsProportionalSplit(r.value, priceShip.value, sum, feeTotal.value, quantity.value))
  {
    match ValidateInputs(priceShip, priceArticle, feeTotal, quantity)
    case Some(e) => Failure(e)
    case None =>
      var priceSum := priceShip.value + priceArticle.value;
      if priceSum <= 0.0 then HandleZeroOrNegativePrice(priceSum)
      else Success(CalculateFees(priceShip.value, priceSum, feeTotal.value, quantity.value))
  }

  /**
    With a positive price sum and quantity the call succeeds, and the two
    per-unit fees times the quantity give back the total fee to within one
    cent per unit.
  */
  lemma PerUnitFeesRecoverTotalFee(priceShip: real, priceArticle: real, feeTotal: real, quantity: real)
    requires priceShip + priceArticle > 0.0 && quantity > 0.0
    ensures var r := CalculateShipAndArticleFeePerUnit(Some(priceShip), Some(priceArticle), Some(feeTotal), Some(quantity));
      r.Success? && RecoversTotal(r.value, feeTotal, quantity)
  {
    var r := CalculateShipAndArticleFeePerUnit(Some(priceShip), Some(priceArticle), Some(feeTotal), Some(quantity));
    PerUnitFeesRecoverTotal(r.value, priceShip, priceShip + priceArticle, feeTotal, quantity);
  }

  /** Non-negative prices of positive sum and a non-negative total fee give non-negative per-unit fees. */
  lemma PerUnitFeesNonNegative(priceShip: real, priceArticle: real, feeTotal: real, quantity: real)
    requires priceShip >= 0.0 && priceArticle >= 0.0 && priceShip + priceArticle > 0.0
    requires feeTotal >= 0.0 && quantity > 0.0
    ensures var r := CalculateShipAndArticleFeePerUnit(Some(priceShip), Some(priceArticle), Some(feeTotal), Some(quantity));
      r.Success? && r.value.shipFee >= 0.0 && r.value.articleFee >= 0.0
  {
    var r := CalculateShipAndArticleFeePerUnit(Some(priceShip), Some(priceArticle), Some(feeTotal), Some(quantity));
    ProportionalSplitNonNegative(r.value, priceShip, priceArticle, feeTotal, quantity);
  }
}
