# Fee allocation and mail position models

A Dafny model of three small components of a shop back end:

- **FeeUtil** splits a total fee (a payment-processing fee, say) between shipping and article. It splits in proportion to the two prices, then spreads each part over the quantity. There are two variants:
  - `FeeUtil_Code_4.java` checks every input;
  - `FeeUtil_Code_2.java` checks only that the price sum is not negative.
- **CustomerFeedbackSent** builds the model for the customer-feedback mail. It folds the order positions into one line per article GTIN-13 with a quantity, plus running article and shipping totals.
- **OrderSent** builds the model for the order-sent mail. It holds one quantity-1 position per trade item, an order model filled from the first trade item, and the two account ids. There are three variants:
  - `OrderSent_Code_2.java` splits the work into helpers;
  - `OrderSent_Code_4.java` uses two loops;
  - `OrderSent_Code_3.java` uses one loop.

Files and modules:

- `decimal.dfy` (`Decimal`) models `BigDecimal`.
  - Values are exact `real`s.
  - `RoundHalfUp` rounds to a number of fractional digits with `RoundingMode.HALF_UP`. It is proved against an independent definition, `IsHalfUp`: nearest value at the scale, ties away from zero.
  - `Divide` is `divide(divisor, scale, HALF_UP)`.
- `fees.dfy` (`Fees`) states what a correct split is: `IsProportionalSplit` and `SplitsBy`. It proves that a split is unique, within half a cent per unit, recovers the total, and is non-negative.
- `fee_util_code_4.dfy` and `fee_util_code_2.dfy` model the two variants. A Java `null` is `None`, and an exception is a `Failure`.
- `customer_feedback_sent_code_3.dfy` has two halves:
  - the fold on values (`Aggregate`) and its invariants;
  - the generator as it runs, with classes whose fields are updated in place, proved to compute `Aggregate`.
- `order_sent_model.dfy` (`OrderSentModel`) states the correct order-sent map, `IsOrderSentModel`, and proves that it admits one map only.
- `order_sent_code_2.dfy`, `order_sent_code_4.dfy` and `order_sent_code_3.dfy` model the three generators. Each is proved to build that map. The variants are proved to agree.
- `domain.dfy` (`Domain`) and `wrappers.dfy` (`Wrappers`) hold the shared records and `Option`/`Result`.

How the Java is represented:

- The named-parameter map `Map<String, Object>` is the typed record `Domain.Parameters`. Each entry is `Absent`, `Null` or `Present(value)`. `Option<Parameters>` is used where the map itself may be null.
- Result maps are `map<string, ...>` keyed by the source's key strings.

The model follows the code wherever it behaves other than a careful reader would expect. Three such places:

- **Unchecked quantity in FeeUtil_Code_2.** A caller used to `FeeUtil_Code_4.java` would expect a quantity that is not positive to be rejected up front. `FeeUtil_Code_2.java` does not check it:
  - a null price raises `NullPointerException` in the addition;
  - with a positive price sum, a null total fee or quantity raises `NullPointerException`, and a zero quantity raises `ArithmeticException` in `divide`;
  - with a price sum of zero, the result is zero fees whatever the total fee and quantity are, null included;
  - a negative quantity is accepted.
- **Article total.** The code computes `totalCosts` by adding a single price per ARTICLE position, and separately keeps each line's total as single price × quantity. `AggregateTotalCosts` and `AggregateLineTotals` prove that the two agree: with exact arithmetic, `totalCosts` is the sum of single price × quantity over the lines. The single price added is the one stored on the line, that is the price of the first ARTICLE position with that GTIN-13; a later position's own price is ignored (`AggregateSinglePrices`).
- **Null parameter map.** In the generators other than `OrderSent_Code_2.java`, a null parameter map fails in `parameters.get` with `NullPointerException`. It does not fail with `IllegalArgumentException`.

## Model

| member | source | states |
|---|---|---|
| Decimal.HalfUpInt | FeeUtil_Code_4.java:14 | HALF_UP to an integer meets the reference definition: nearest integer, ties away from zero, for negative values too |
| Decimal.RoundHalfUp | FeeUtil_Code_4.java:89 | the rounded value has `scale` digits, is the HALF_UP rounding of the exact value, and is within half a unit in the last place of it |
| Decimal.Divide | FeeUtil_Code_4.java:96-97 | `divide(divisor, scale, HALF_UP)` is the HALF_UP rounding of the exact quotient, within half a unit in the last place |
| Decimal.HalfUpUnique | FeeUtil_Code_4.java:14 | any value that meets the HALF_UP definition is the one RoundHalfUp computes |
| Decimal.HalfUpSame | FeeUtil_Code_4.java:14 | two HALF_UP roundings of the same value are equal |
| Decimal.RoundHalfUpExact | FeeUtil_Code_4.java:14 | a value that already has `scale` digits is not changed by rounding |
| Decimal.RoundHalfUpMonotone | FeeUtil_Code_4.java:14 | rounding keeps the order of two values |
| Decimal.RoundHalfUpUnitInterval | FeeUtil_Code_4.java:89 | a proportion between 0 and 1 stays between 0 and 1 after rounding |
| Fees.ProportionalSplitUnique | FeeUtil_Code_4.java:89-97 | two fees that both split the same total over the same prices and quantity are equal, so the split is fully determined |
| Fees.PerUnitFeesWithinHalfCent | FeeUtil_Code_4.java:92-97 | the ship part is the total times the rounded ship proportion, the article part is the rest, and each per-unit fee is within 0.005 of its part divided by the quantity |
| Fees.PerUnitFeesRecoverTotal | FeeUtil_Code_4.java:92-97 | (shipFee + articleFee) × quantity is within one cent per unit of the total fee, because the two parts add up to the total exactly |
| Fees.ProportionalSplitNonNegative | FeeUtil_Code_4.java:89-97 | with non-negative prices of positive sum, a non-negative total fee and a positive quantity, neither per-unit fee is negative |
| FeeUtilCode4.PerUnitFeesRecoverTotalFee | FeeUtil_Code_4.java:17-30 | with a positive price sum and quantity the call succeeds, and (shipFee + articleFee) × quantity is within one cent per unit of the total fee |
| FeeUtilCode4.PerUnitFeesNonNegative | FeeUtil_Code_4.java:17-30 | non-negative prices of positive sum, a non-negative total fee and a positive quantity make the call succeed with two non-negative per-unit fees |
| FeeUtilCode4.ValidateInputs | FeeUtil_Code_4.java:41-55 | passes iff no input is null and the quantity is positive; otherwise an IllegalArgumentException, with the "Quantity must be positive" message when only the quantity is null or not positive |
| FeeUtilCode4.HandleZeroOrNegativePrice | FeeUtil_Code_4.java:64-73 | a negative price sum raises IllegalArgumentException; a zero one gives zero fees |
| FeeUtilCode4.CalculateFees | FeeUtil_Code_4.java:84-103 | the result is the proportional split: proportion rounded HALF_UP to 5 digits, article part by subtraction, per-unit fees rounded HALF_UP to 2 digits |
| FeeUtilCode4.CalculateShipAndArticleFeePerUnit | FeeUtil_Code_4.java:17-30 | a null price or total fee gives the message of the first null in order; the call fails iff an input is null, the quantity is not positive or the price sum is negative, always with IllegalArgumentException; a zero price sum gives zero fees; otherwise the proportional split |
| FeeUtilCode2.ValidateInputs | FeeUtil_Code_2.java:41-46 | a null price raises NullPointerException in the addition; a negative sum raises IllegalArgumentException; otherwise passes |
| FeeUtilCode2.CalculateAndSetFees | FeeUtil_Code_2.java:53-63 | a null total fee or quantity raises NullPointerException, a zero quantity ArithmeticException; otherwise the proportional split |
| FeeUtilCode2.CalculateShipAndArticleFeePerUnit | FeeUtil_Code_2.java:26-39 | fails iff a price is null, the sum is negative, or the sum is positive with a null total fee, a null quantity or a zero quantity; IllegalArgumentException exactly for a negative sum; a zero sum gives zero fees (setZeroFees), otherwise the proportional split |
| FeeUtilCode2.ZeroPriceSumGivesZeroFees | FeeUtil_Code_2.java:32-33 | a price sum of zero gives zero fees for any total fee and quantity, null or zero included |
| FeeUtilCode2.UnvalidatedQuantityFailsInDivision | FeeUtil_Code_2.java:58-59 | with a positive price sum, a null quantity fails with NullPointerException and a zero one with ArithmeticException, in the division |
| FeeUtilCode2.AgreesWithHardenedVariant | FeeUtil_Code_2.java:26-39 | for non-null inputs and a positive quantity both variants succeed together, with equal fees, and both reject a negative sum with IllegalArgumentException |
| CustomerFeedbackSentCode3.NewLine | CustomerFeedbackSent_Code_3.java:83-91 | a new line has quantity 1, single price and line total the gross price, and the position's name and GTIN-13 |
| CustomerFeedbackSentCode3.Bump | CustomerFeedbackSent_Code_3.java:93-95 | one more item, line total single price × new quantity, other fields kept |
| CustomerFeedbackSentCode3.FirstIndexOf | CustomerFeedbackSent_Code_3.java:69-75 | None iff no line has the GTIN-13; otherwise the first line that has it |
| CustomerFeedbackSentCode3.StepArticle | CustomerFeedbackSent_Code_3.java:65-81 | a new GTIN-13 appends a line and adds the gross price to totalCosts; a known one updates only its first line and adds that line's stored single price; shippingCosts unchanged |
| CustomerFeedbackSentCode3.Step | CustomerFeedbackSent_Code_3.java:56-62 | ARTICLE goes to StepArticle, SHIPPING adds its gross price to shippingCosts and nothing else, any other type changes nothing |
| CustomerFeedbackSentCode3.AggregateFirstSeenOrder | CustomerFeedbackSent_Code_3.java:65-81 | the lines' GTIN-13s are the ARTICLE GTIN-13s in first-seen order, each once |
| CustomerFeedbackSentCode3.AggregateGtinsDistinct | CustomerFeedbackSent_Code_3.java:65-81 | no two lines share a GTIN-13, and a GTIN-13 has a line iff an ARTICLE position carries it |
| CustomerFeedbackSentCode3.AggregateQuantities | CustomerFeedbackSent_Code_3.java:69-79 | each line's quantity is the number of ARTICLE positions with its GTIN-13 |
| CustomerFeedbackSentCode3.AggregateLineTotals | CustomerFeedbackSent_Code_3.java:93-95 | every line total is single price × quantity |
| CustomerFeedbackSentCode3.AggregateTotalCosts | CustomerFeedbackSent_Code_3.java:77-96 | totalCosts is the sum of the line totals |
| CustomerFeedbackSentCode3.AggregateSinglePrices | CustomerFeedbackSent_Code_3.java:65-96 | every line has the single price and name of the first ARTICLE position with its GTIN-13, and totalCosts is the sum, over the ARTICLE positions, of that first position's gross price |
| CustomerFeedbackSentCode3.FirstArticleFound | CustomerFeedbackSent_Code_3.java:65-81 | a GTIN-13 has a first ARTICLE position iff some ARTICLE position carries it |
| CustomerFeedbackSentCode3.AggregateShippingCosts | CustomerFeedbackSent_Code_3.java:59-60 | shippingCosts is the sum of the SHIPPING positions' gross prices |
| CustomerFeedbackSentCode3.ThreeEqualArticles | CustomerFeedbackSent_Code_3.java:55-97 | three ARTICLE positions of one GTIN-13 at 10.00 give one line of quantity 3 and total 30.00, and totalCosts 30.00 |
| CustomerFeedbackSentCode3.Position.constructor | CustomerFeedbackSent_Code_3.java:83-91 | createPosition: the new position's value is NewLine of the order position |
| CustomerFeedbackSentCode3.CustomerFeedbackSentModel.constructor | CustomerFeedbackSent_Code_3.java:48-50 | an empty position list and both totals zero |
| CustomerFeedbackSentCode3.UpdateExistingPosition | CustomerFeedbackSent_Code_3.java:93-97 | the k-th position is bumped in place, totalCosts grows by its single price, the list and shippingCosts are unchanged |
| CustomerFeedbackSentCode3.ProcessArticlePosition | CustomerFeedbackSent_Code_3.java:65-81 | the scan with `found` and `break` leaves the model in the state StepArticle gives, positions kept distinct |
| CustomerFeedbackSentCode3.PopulateOrderPositions | CustomerFeedbackSent_Code_3.java:55-63 | the model afterwards is Fold of the model before over the order's positions, in order |
| CustomerFeedbackSentCode3.GenerateModel | CustomerFeedbackSent_Code_3.java:16-31 | a null map raises NullPointerException, a missing or null order IllegalArgumentException("customerFeedback is missing"); otherwise exactly the keys customerFeedback, platformAccountId and resellerId, with a fresh model equal to Aggregate of the order's positions |
| OrderSentModel.PositionsUnique | OrderSent_Code_2.java:61-70 | two position lists that are both one quantity-1 copy per trade item are equal |
| OrderSentModel.OrderSentModelUnique | OrderSent_Code_2.java:81-87 | two maps that are both the order-sent model of the same order and items are equal |
| OrderSentCode2.ValidateParameters | OrderSent_Code_2.java:40-48 | a null map or missing key gives the "missing" IllegalArgumentException, a null value the "cannot be null" one; passes iff both values are present |
| OrderSentCode2.CreateOrderModel | OrderSent_Code_2.java:50-59 | null for no trade items, else the model filled from the first item's position |
| OrderSentCode2.CreatePositionModel | OrderSent_Code_2.java:72-79 | quantity 1 and the position's GTIN-13, gross price and name |
| OrderSentCode2.CreatePositionModels | OrderSent_Code_2.java:61-70 | one position per trade item, in order, none merged |
| OrderSentCode2.PopulateResultMap | OrderSent_Code_2.java:81-87 | adds exactly the keys order, positions, platformAccountId and resellerId with their values and keeps every other entry |
| OrderSentCode2.GenerateModel | OrderSent_Code_2.java:22-38 | fails exactly when validation does, with its exception; otherwise the order-sent model |
| OrderSentCode4.Get | OrderSent_Code_4.java:21-23 | `get` yields a value iff the key maps to a non-null value |
| OrderSentCode4.ValidateParameters | OrderSent_Code_4.java:38-42 | passes iff order and tradeItems are non-null, else IllegalArgumentException("Parameters are missing.") |
| OrderSentCode4.CreatePositionModels | OrderSent_Code_4.java:44-58 | one quantity-1 position per trade item, in order, fields copied |
| OrderSentCode4.CreateOrderModel | OrderSent_Code_4.java:60-70 | the model is filled on the first iteration and never changed after; null for no trade items |
| OrderSentCode4.GenerateModel | OrderSent_Code_4.java:19-36 | a null map raises NullPointerException, a missing or null value IllegalArgumentException; otherwise the order-sent model |
| OrderSentCode4.AgreesWithCode2 | OrderSent_Code_4.java:28-33 | this variant and OrderSent_Code_2 succeed on the same parameters and then return equal maps |
| OrderSentCode3.GenerateModel | OrderSent_Code_3.java:19-54 | the single loop fills the order model once, from the first item, and appends one position per item; failures as in OrderSent_Code_4 |
| OrderSentCode3.AgreesWithCode4 | OrderSent_Code_3.java:48-51 | the single loop and the two loops give the same result for every parameter map, failures included |

## Left out

- I/O and logging: the logger fields and `LOGGER.warn` for an empty trade-item list have no effect on the result.
- The customer and address snapshot that `createCustomerFeedbackSentModel` copies field by field (CustomerFeedbackSent_Code_3.java:35-47, 51). It is pass-through data. `CustomerFeedbackSentModel` keeps only the positions and the two totals.
- Getter chains: `getRowPlatformAccount().getId()` and the reseller id are the plain fields `platformAccountId` and `resellerId` of `RowOrder`.
- `PositionSentModel.fill` is not part of this model. Its result is `FilledFrom(position)`, which is determined by the position alone.
- `BigDecimal` scale and representation are modelled as exact rationals. This covers the scale of a product, the scale of `ZERO`, and `equals` against `compareTo`. Only the explicit HALF_UP roundings are kept.
- FeeUtilCode4.HandleZeroOrNegativePrice: the exception message leaves out the rendering of the negative sum that the source puts between its words.
- FeeUtilCode2.ValidateInputs: the exception message leaves out the rendering of the negative sum, as above.
- The untyped parameter map is left out: a value of the wrong type under a key would raise `ClassCastException`, which is not modelled. Parameters are already typed.
- Exceptions from null fields of database rows (a null GTIN-13 or price in an order position) are not modelled. Row fields are plain values.
- The `Fee` bean is filled through setters in the source. Here it is a returned value, because it is written once after it is created.
- The OrderSent positions and result maps are modelled as values (`seq`, `map`). In the source they are fresh local lists and maps that nothing else sees. The feedback positions are objects updated in place, because the source mutates them during the scan.
