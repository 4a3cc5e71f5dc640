/**
  FeeUtil, the basic variant: the only check it makes is that the price sum
  is not negative. A null input, or a zero quantity once the price sum is
  positive, surfaces as the exception the BigDecimal call raises. A `None`
  argument is a Java null.
*/
module FeeUtilCode2 {
  import opened Wrappers
  import opened Decimal
  import opened Domain
  import opened Fees
  import FeeUtilCode4

  /** The source puts the offending sum between the words; its rendering is not modelled. */
  const PRICE_SUM_LOWER_THAN_ZERO := "PriceSum is lower than 0!"

  /** validateInputs: `priceShip.add(priceArticle)` dereferences both prices, then the sum is checked. */
  function ValidateInputs(priceShip: Option<real>, priceArticle: Option<real>): (r: Option<JavaException>)
    ensures priceShip.None? || priceArticle.None? ==> r == Some(NullPointer)
    ensures r.None? <==> priceShip.Some? && priceArticle.Some? && priceShip.value + priceArticle.value >= 0.0
    ensures r.Some? && r.value.IllegalArgument? <==>
      priceShip.Some? && priceArticle.Some? && priceShip.value + priceArticle.value < 0.0
  {
    if priceShip.None? || priceArticle.None? then Some(NullPointer)
    else if priceShip.value + priceArticle.value < 0.0 then Some(IllegalArgument(PRICE_SUM_LOWER_THAN_ZERO))
    else None
  }

  /**
    calculateAndSetFees: `feeTotal.multiply` dereferences the total fee and
    `shipFee.divide(quantity, ...)` dereferences the quantity and fails on zero.
  */
  function CalculateAndSetFees(priceShip: real, priceSum: real, feeTotal: Option<real>, quantity: Option<real>): (r: Result<Fee, JavaException>)
    requires priceSum != 0.0
    ensures feeTotal.None? || quantity.None? ==> r == Failure(NullPointer)
    ensures feeTotal.Some? && quantity.Some? && quantity.value == 0.0 ==> r == Failure(ArithmeticException)
    ensures r.Success? <==> feeTotal.Some? && quantity.Some? && quantity.value != 0.0
    ensures r.Success? ==> IsProportionalSplit(r.value, priceShip, priceSum, feeTotal.value, quantity.value)
  {
    var factorToShip := Divide(priceShip, priceSum, DIVISION_SCALE);
    if feeTotal.None? then Failure(NullPointer)
    else
      var shipFee := feeTotal.value * factorToShip;
      var articleFee := feeTotal.value - shipFee;
      if quantity.None? then Failure(NullPointer)
      else if quantity.value == 0.0 then Failure(ArithmeticException)
      else
        var fee := Fee(Divide(shipFee, quantity.value, FEE_SCALE), Divide(articleFee, quantity.value, FEE_SCALE));
        assert SplitsBy(fee, priceShip, priceSum, feeTotal.value, quantity.value, factorToShip);
        Success(fee)
  }

  /** calculateShipAndArticleFeePerUnit: the Fee, or the exception it throws. */
  function CalculateShipAndArticleFeePerUnit(priceShip: Option<real>, priceArticle: Option<real>,
                                             feeTotal: Option<real>, quantity: Option<real>): (r: Result<Fee, JavaException>)
    ensures priceShip.None? || priceArticle.None? ==> r == Failure(NullPointer)
    ensures r.Failure? <==>
      || priceShip.None? || priceArticle.None?
      || priceShip.value + priceArticle.value < 0.0
      || (priceShip.value + priceArticle.value > 0.0 && (feeTotal.None? || quantity.None? || quantity.value == 0.0))
    ensures r.Failure? && r.error.IllegalArgument? <==>
      priceShip.Some? && priceArticle.Some? && priceShip.value + priceArticle.value < 0.0
    ensures r.Failure? && r.error == ArithmeticException <==>
      && priceShip.Some? && priceArticle.Some? && priceShip.value + priceArticle.value > 0.0
      && feeTotal.Some? && quantity.Some? && quantity.value == 0.0
    ensures r.Success? ==>
      var sum := priceShip.value + priceArticle.value;
      && (sum == 0.0 ==> r.value == Fee(0.0, 0.0))
      && (sum != 0.0 ==> IsProportionalSplit(r.value, priceShip.value, sum, feeTotal.value, quantity.value))
  {
    match ValidateInputs(priceShip, priceArticle)
    case Some(e) => Failure(e)
    case None =>
      var priceSum := priceShip.value + priceArticle.value;
      if priceSum == 0.0 then Success(Fee(0.0, 0.0))
      else CalculateAndSetFees(priceShip.value, priceSum, feeTotal, quantity)
  }

  /**
    A price sum of exactly zero gives zero fees, whatever the total fee and
    the quantity are: null, zero or negative included.
  */
  lemma ZeroPriceSumGivesZeroFees(priceShip: real, priceArticle: real, feeTotal: Option<real>, quantity: Option<real>)
    requires priceShip + priceArticle == 0.0
    ensures CalculateShipAndArticleFeePerUnit(Some(priceShip), Some(priceArticle), feeTotal, quantity) == Success(Fee(0.0, 0.0))
  {
  }

  /**
    With the price sum positive, a null or zero quantity is not rejected up
    front but fails in the division: with a null pointer or an arithmetic error.
  */
  lemma UnvalidatedQuantityFailsInDivision(priceShip: real, priceArticle: real, feeTotal: real, quantity: Option<real>)
    requires priceShip + priceArticle > 0.0
    requires quantity.None? || quantity.value == 0.0
    ensures var r := CalculateShipAndArticleFeePerUnit(Some(priceShip), Some(priceArticle), Some(feeTotal), quantity);
      r == Failure(if quantity.None? then NullPointer else ArithmeticException)
  {
  }

  /**
    On the inputs the hardened variant accepts (no null, a positive quantity,
    a price sum that is not negative) both variants compute the same Fee, and
    on a negative price sum both raise IllegalArgumentException.
  */
  lemma AgreesWithHardenedVariant(priceShip: real, priceArticle: real, feeTotal: real, quantity: real)
    requires quantity > 0.0
    ensures var r2 := CalculateShipAndArticleFeePerUnit(Some(priceShip), Some(priceArticle), Some(feeTotal), Some(quantity));
      var r4 := FeeUtilCode4.CalculateShipAndArticleFeePerUnit(Some(priceShip), Some(priceArticle), Some(feeTotal), Some(quantity));
      && (r2.Success? <==> r4.Success?)
      && (r2.Success? ==> r2 == r4)
      && (r2.Failure? ==> r2.error.IllegalArgument? && r4.error.IllegalArgument?)
  {
    var r2 := CalculateShipAndArticleFeePerUnit(Some(priceShip), Some(priceArticle), Some(feeTotal), Some(quantity));
    var r4 := FeeUtilCode4.CalculateShipAndArticleFeePerUnit(Some(priceShip), Some(priceArticle), Some(feeTotal), Some(quantity));
    var sum := priceShip + priceArticle;
    if sum != 0.0 && r2.Success? {
      ProportionalSplitUnique(r2.value, r4.value, priceShip, sum, feeTotal, quantity);
    }
  }
}
