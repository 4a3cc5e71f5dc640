/**
  The result of the fee allocator and what it means: a total fee split
  between shipping and article in proportion to their prices, then spread
  over the quantity.
*/
module Fees {
  import opened Decimal

  /** Digits kept in the ship proportion. */
  const DIVISION_SCALE: nat := 5
  /** Digits kept in a per-unit fee. */
  const FEE_SCALE: nat := 2

  /** The Fee bean: the per-unit shipping fee and the per-unit article fee. */
  datatype Fee = Fee(shipFee: real, articleFee: real)

  /**
    `fee` spreads `shipPart` and `articlePart` over `quantity`: each per-unit
    fee is its part divided by the quantity, rounded HALF_UP to FEE_SCALE digits.
  */
  ghost predicate IsPerUnitSplit(fee: Fee, shipPart: real, articlePart: real, quantity: real)
    requires quantity != 0.0
  {
    && IsHalfUp(fee.shipFee, shipPart / quantity, FEE_SCALE)
    && IsHalfUp(fee.articleFee, articlePart / quantity, FEE_SCALE)
  }

  /**
    `fee` is the proportional split of `feeTotal`: the ship proportion is
    priceShip / priceSum rounded HALF_UP to DIVISION_SCALE digits (the one
    value IsHalfUp admits), the ship part is feeTotal times that proportion,
    the article part is what is left of feeTotal (so the two parts add up to
    feeTotal exactly), and both parts are spread over the quantity.
  */
  ghost predicate IsProportionalSplit(fee: Fee, priceShip: real, priceSum: real, feeTotal: real, quantity: real)
    requires priceSum != 0.0 && quantity != 0.0
  {
    exists proportion :: SplitsBy(fee, priceShip, priceSum, feeTotal, quantity, proportion)
  }

  /** The split of IsProportionalSplit, with the ship proportion it uses. */
  ghost predicate SplitsBy(fee: Fee, priceShip: real, priceSum: real, feeTotal: real, quantity: real, proportion: real)
    requires priceSum != 0.0 && quantity != 0.0
  {
    && IsHalfUp(proportion, priceShip / priceSum, DIVISION_SCALE)
    && IsPerUnitSplit(fee, feeTotal * proportion, feeTotal - feeTotal * proportion, quantity)
  }

  /**
    The proportional split has one result: two Fees that both split the same
    total over the same prices and quantity are the same Fee.
  */
  lemma ProportionalSplitUnique(fee1: Fee, fee2: Fee, priceShip: real, priceSum: real, feeTotal: real, quantity: real)
    requires priceSum != 0.0 && quantity != 0.0
    requires IsProportionalSplit(fee1, priceShip, priceSum, feeTotal, quantity)
    requires IsProportionalSplit(fee2, priceShip, priceSum, feeTotal, quantity)
    ensures fee1 == fee2
  {
    var p1 :| SplitsBy(fee1, priceShip, priceSum, feeTotal, quantity, p1);
    var p2 :| SplitsBy(fee2, priceShip, priceSum, feeTotal, quantity, p2);
    SplitsByParts(fee1, priceShip, priceSum, feeTotal, quantity, p1);
    SplitsByParts(fee2, priceShip, priceSum, feeTotal, quantity, p2);
    HalfUpSame(p1, p2, priceShip / priceSum, DIVISION_SCALE);
    SplitsByParts(fee2, priceShip, priceSum, feeTotal, quantity, p1);
    PerUnitSplitUnique(fee1, fee2, feeTotal * p1, feeTotal - feeTotal * p1, quantity);
  }

  lemma SplitsByParts(fee: Fee, priceShip: real, priceSum: real, feeTotal: real, quantity: real, proportion: real)
    requires priceSum != 0.0 && quantity != 0.0
    requires SplitsBy(fee, priceShip, priceSum, feeTotal, quantity, proportion)
    ensures IsHalfUp(proportion, priceShip / priceSum, DIVISION_SCALE)
    ensures IsPerUnitSplit(fee, feeTotal * proportion, feeTotal - feeTotal * proportion, quantity)
  {
  }

  lemma PerUnitSplitUnique(fee1: Fee, fee2: Fee, shipPart: real, articlePart: real, quantity: real)
    requires quantity != 0.0
    requires IsPerUnitSplit(fee1, shipPart, articlePart, quantity)
    requires IsPerUnitSplit(fee2, shipPart, articlePart, quantity)
    ensures fee1 == fee2
  {
    HalfUpSame(fee1.shipFee, fee2.shipFee, shipPart / quantity, FEE_SCALE);
    HalfUpSame(fee1.articleFee, fee2.articleFee, articlePart / quantity, FEE_SCALE);
  }

  lemma FeeScaleHalfUlp()
    ensures HalfUlp(FEE_SCALE) == 0.005
  {
    assert Pow10(FEE_SCALE) == 100;
  }

  /** A HALF_UP result is within half a unit of the exact value. */
  lemma HalfUpError(y: real, x: real, scale: nat)
    requires IsHalfUp(y, x, scale)
    ensures -HalfUlp(scale) <= y - x <= HalfUlp(scale)
  {
    HalfUpUnique(y, x, scale);
  }

  /**
    In a split, the ship part is feeTotal times the ship proportion (the one
    HALF_UP rounding of priceShip / priceSum to DIVISION_SCALE digits), and
    each per-unit fee is within half a cent of its part divided by the quantity.
  */
  lemma PerUnitFeesWithinHalfCent(fee: Fee, priceShip: real, priceSum: real, feeTotal: real, quantity: real, proportion: real)
    requires priceSum != 0.0 && quantity != 0.0
    requires IsProportionalSplit(fee, priceShip, priceSum, feeTotal, quantity)
    requires IsHalfUp(proportion, priceShip / priceSum, DIVISION_SCALE)
    ensures -0.005 <= fee.shipFee - feeTotal * proportion / quantity <= 0.005
    ensures -0.005 <= fee.articleFee - (feeTotal - feeTotal * proportion) / quantity <= 0.005
  {
    var used :| SplitsBy(fee, priceShip, priceSum, feeTotal, quantity, used);
    SplitsByParts(fee, priceShip, priceSum, feeTotal, quantity, used);
    HalfUpSame(used, proportion, priceShip / priceSum, DIVISION_SCALE);
    SplitsByParts(fee, priceShip, priceSum, feeTotal, quantity, proportion);
    HalfUpError(fee.shipFee, feeTotal * proportion / quantity, FEE_SCALE);
    HalfUpError(fee.articleFee, (feeTotal - feeTotal * proportion) / quantity, FEE_SCALE);
    FeeScaleHalfUlp();
  }

  /** (shipFee + articleFee) × quantity is within one cent per unit of the total fee. */
  ghost predicate RecoversTotal(fee: Fee, feeTotal: real, quantity: real)
  {
    -0.01 * quantity <= (fee.shipFee + fee.articleFee) * quantity - feeTotal <= 0.01 * quantity
  }

  /**
    Spread back over the quantity, the two per-unit fees give the total fee
    again up to one cent per unit: each of the two roundings is off by at most
    half a cent, and the two parts add up to the total exactly.
  */
  lemma PerUnitFeesRecoverTotal(fee: Fee, priceShip: real, priceSum: real, feeTotal: real, quantity: real)
    requires priceSum != 0.0 && quantity > 0.0
    requires IsProportionalSplit(fee, priceShip, priceSum, feeTotal, quantity)
    ensures RecoversTotal(fee, feeTotal, quantity)
  {
    var proportion :| SplitsBy(fee, priceShip, priceSum, feeTotal, quantity, proportion);
    SplitsByParts(fee, priceShip, priceSum, feeTotal, quantity, proportion);
    var shipPart := feeTotal * proportion;
    var articlePart := feeTotal - shipPart;
    HalfUpError(fee.shipFee, shipPart / quantity, FEE_SCALE);
    HalfUpError(fee.articleFee, articlePart / quantity, FEE_SCALE);
    FeeScaleHalfUlp();
    RecoverFromParts(fee, shipPart, articlePart, feeTotal, quantity);
  }

  lemma RecoverFromParts(fee: Fee, shipPart: real, articlePart: real, feeTotal: real, quantity: real)
    requires quantity > 0.0 && shipPart + articlePart == feeTotal
    requires -0.005 <= fee.shipFee - shipPart / quantity <= 0.005
    requires -0.005 <= fee.articleFee - articlePart / quantity <= 0.005
    ensures -0.01 * quantity <= (fee.shipFee + fee.articleFee) * quantity - feeTotal <= 0.01 * quantity
  {
    AddQuotients(shipPart, articlePart, quantity);
    ScaleError(fee.shipFee + fee.articleFee, feeTotal, quantity);
  }

  lemma AddQuotients(a: real, b: real, q: real)
    requires q != 0.0
    ensures a / q + b / q == (a + b) / q
  {
  }

  lemma ScaleError(sum: real, total: real, q: real)
    requires q > 0.0 && -0.01 <= sum - total / q <= 0.01
    ensures -0.01 * q <= sum * q - total <= 0.01 * q
  {
    var e := sum - total / q;
    assert sum * q - total == e * q;
    assert -0.01 * q <= e * q <= 0.01 * q;
  }

  /**
    With non-negative prices (not both zero), a non-negative total fee and a
    positive quantity, neither per-unit fee is negative.
  */
  lemma ProportionalSplitNonNegative(fee: Fee, priceShip: real, priceArticle: real, feeTotal: real, quantity: real)
    requires priceShip >= 0.0 && priceArticle >= 0.0 && priceShip + priceArticle > 0.0
    requires feeTotal >= 0.0 && quantity > 0.0
    requires IsProportionalSplit(fee, priceShip, priceShip + priceArticle, feeTotal, quantity)
    ensures fee.shipFee >= 0.0 && fee.articleFee >= 0.0
  {
    var priceSum := priceShip + priceArticle;
    var proportion :| SplitsBy(fee, priceShip, priceSum, feeTotal, quantity, proportion);
    HalfUpUnique(proportion, priceShip / priceSum, DIVISION_SCALE);
    ShareInUnitInterval(priceShip, priceSum);
    RoundHalfUpUnitInterval(priceShip / priceSum, DIVISION_SCALE);
    SplitsByParts(fee, priceShip, priceSum, feeTotal, quantity, proportion);
    var shipPart := feeTotal * proportion;
    PartsNonNegative(feeTotal, proportion);
    QuotientNonNegative(shipPart, quantity);
    QuotientNonNegative(feeTotal - shipPart, quantity);
    HalfUpNonNegative(fee.shipFee, shipPart / quantity, FEE_SCALE);
    HalfUpNonNegative(fee.articleFee, (feeTotal - shipPart) / quantity, FEE_SCALE);
  }

  lemma ShareInUnitInterval(part: real, sum: real)
    requires 0.0 <= part <= sum && sum > 0.0
    ensures 0.0 <= part / sum <= 1.0
  {
  }

  lemma PartsNonNegative(total: real, proportion: real)
    requires total >= 0.0 && 0.0 <= proportion <= 1.0
    ensures 0.0 <= total * proportion <= total
  {
  }

  lemma QuotientNonNegative(a: real, q: real)
    requires a >= 0.0 && q > 0.0
    ensures a / q >= 0.0
  {
  }

  /** HALF_UP rounding of a non-negative value is not negative. */
  lemma HalfUpNonNegative(y: real, x: real, scale: nat)
    requires IsHalfUp(y, x, scale) && x >= 0.0
    ensures y >= 0.0
  {
    HalfUpUnique(y, x, scale);
    assert AtScale(0.0, scale);
    RoundHalfUpExact(0.0, scale);
    RoundHalfUpMonotone(0.0, x, scale);
  }
}
