/**
  The customer-feedback mail model: the order positions are folded, in
  order, into a list of article lines (one per GTIN-13, with a quantity) and
  two running totals, the article costs and the shipping costs.

  The first half states the fold on values (`Aggregate`) and proves what it
  keeps; the second half is the generator as the source runs it, on objects
  whose fields are updated in place, proved to compute `Aggregate`.
*/
module CustomerFeedbackSentCode3 {
  import opened Wrappers
  import opened Domain

  // ---- The fold on values ----

  /** A CustomerFeedbackSentModel.Position as a value. */
  datatype Line = Line(singlePrice: real, totalPerItemPrice: real, quantity: nat, name: string, gtin13: Gtin13)

  /** The part of a CustomerFeedbackSentModel the fold computes. */
  datatype Summary = Summary(lines: seq<Line>, totalCosts: real, shippingCosts: real)

  /** createCustomerFeedbackSentModel: no lines and both totals zero. */
  const Empty := Summary([], 0.0, 0.0)

  /** createPosition: a line for one item of `p`. */
  function NewLine(p: RowOrderPosition): (l: Line)
    ensures l.quantity == 1 && l.singlePrice == p.priceGross && l.totalPerItemPrice == p.priceGross
    ensures l.name == p.name && l.gtin13 == p.gtin13
  {
    Line(p.priceGross, p.priceGross, 1, p.name, p.gtin13)
  }

  /** updateExistingPosition on one line: one more item, the line total recomputed. */
  function Bump(l: Line): (r: Line)
    ensures r.quantity == l.quantity + 1
    ensures r.totalPerItemPrice == l.singlePrice * r.quantity as real
    ensures r.singlePrice == l.singlePrice && r.name == l.name && r.gtin13 == l.gtin13
  {
    var quantity := l.quantity + 1;
    l.(quantity := quantity, totalPerItemPrice := l.singlePrice * quantity as real)
  }

  /** The GTIN-13 of every line, in order. */
  function Gtins(lines: seq<Line>): (r: seq<Gtin13>)
    ensures |r| == |lines|
    ensures forall i :: 0 <= i < |lines| ==> r[i] == lines[i].gtin13
  {
    if lines == [] then [] else Gtins(lines[..|lines| - 1]) + [lines[|lines| - 1].gtin13]
  }

  /** The first line with GTIN-13 `gtin`, as the scan with `break` finds it. */
  function FirstIndexOf(lines: seq<Line>, gtin: Gtin13): (r: Option<nat>)
    ensures r.None? <==> forall i :: 0 <= i < |lines| ==> lines[i].gtin13 != gtin
    ensures r.Some? ==> r.value < |lines| && lines[r.value].gtin13 == gtin
    ensures r.Some? ==> forall i :: 0 <= i < r.value ==> lines[i].gtin13 != gtin
  {
    if lines == [] then None
    else if lines[0].gtin13 == gtin then Some(0)
    else match FirstIndexOf(lines[1..], gtin)
      case None => None
      case Some(k) => Some(k + 1)
  }

  /** processArticlePosition. */
  function StepArticle(s: Summary, p: RowOrderPosition): (r: Summary)
    ensures r.shippingCosts == s.shippingCosts
    ensures FirstIndexOf(s.lines, p.gtin13).None? ==>
      r.lines == s.lines + [NewLine(p)] && r.totalCosts == s.totalCosts + p.priceGross
    ensures FirstIndexOf(s.lines, p.gtin13).Some? ==>
      var k := FirstIndexOf(s.lines, p.gtin13).value;
      && |r.lines| == |s.lines|
      && r.lines[k] == Bump(s.lines[k])
      && (forall i :: 0 <= i < |s.lines| && i != k ==> r.lines[i] == s.lines[i])
      && r.totalCosts == s.totalCosts + s.lines[k].singlePrice
  {
    match FirstIndexOf(s.lines, p.gtin13)
    case None => s.(lines := s.lines + [NewLine(p)], totalCosts := s.totalCosts + p.priceGross)
    case Some(k) => s.(lines := s.lines[k := Bump(s.lines[k])], totalCosts := s.totalCosts + s.lines[k].singlePrice)
  }

  /** One iteration of populateOrderPositions. */
  function Step(s: Summary, p: RowOrderPosition): (r: Summary)
    ensures p.rowOrderPositionType == ARTICLE ==> r == StepArticle(s, p)
    ensures p.rowOrderPositionType == SHIPPING ==>
      r == s.(shippingCosts := s.shippingCosts + p.priceGross)
    ensures p.rowOrderPositionType.Other? ==> r == s
  {
    match p.rowOrderPositionType
    case ARTICLE => StepArticle(s, p)
    case SHIPPING => s.(shippingCosts := s.shippingCosts + p.priceGross)
    case Other(_) => s
  }

  /** populateOrderPositions from the state `s`: the positions folded in order. */
  function Fold(s: Summary, ps: seq<RowOrderPosition>): Summary
  {
    if ps == [] then s else Step(Fold(s, ps[..|ps| - 1]), ps[|ps| - 1])
  }

  lemma FoldSnoc(s: Summary, ps: seq<RowOrderPosition>, i: nat)
    requires i < |ps|
    ensures Fold(s, ps[..i + 1]) == Step(Fold(s, ps[..i]), ps[i])
  {
    assert ps[..i + 1][..i] == ps[..i];
  }

  /** The model the generator builds for an order with positions `ps`. */
  function Aggregate(ps: seq<RowOrderPosition>): Summary
  {
    Fold(Empty, ps)
  }

  // ---- Reference definitions over the input positions ----

  /** The GTIN-13 of `p` when it is an ARTICLE position. */
  function ArticleGtinOf(p: RowOrderPosition): seq<Gtin13>
  {
    if p.rowOrderPositionType == ARTICLE then [p.gtin13] else []
  }

  /** The GTIN-13 of every ARTICLE position, in order. */
  function ArticleGtins(ps: seq<RowOrderPosition>): (r: seq<Gtin13>)
    ensures forall g :: g in r <==> exists i :: 0 <= i < |ps| && ps[i].rowOrderPositionType == ARTICLE && ps[i].gtin13 == g
  {
    if ps == [] then []
    else
      var p := ps[|ps| - 1];
      var r := ArticleGtins(ps[..|ps| - 1]) + ArticleGtinOf(p);
      assert forall g :: g in r <==> exists i :: 0 <= i < |ps| && ps[i].rowOrderPositionType == ARTICLE && ps[i].gtin13 == g by {
        forall g ensures g in r <==> exists i :: 0 <= i < |ps| && ps[i].rowOrderPositionType == ARTICLE && ps[i].gtin13 == g {
          if g in r && g !in ArticleGtins(ps[..|ps| - 1]) {
            assert ps[|ps| - 1].gtin13 == g;
          }
          if exists i :: 0 <= i < |ps| && ps[i].rowOrderPositionType == ARTICLE && ps[i].gtin13 == g {
            var i :| 0 <= i < |ps| && ps[i].rowOrderPositionType == ARTICLE && ps[i].gtin13 == g;
            if i < |ps| - 1 {
              assert ps[..|ps| - 1][i] == ps[i];
            }
          }
        }
      }
      r
  }

  /** How often `x` occurs in `s`. */
  function Count(s: seq<Gtin13>, x: Gtin13): (n: nat)
    ensures n == 0 <==> x !in s
  {
    if s == [] then 0
    else Count(s[..|s| - 1], x) + (if s[|s| - 1] == x then 1 else 0)
  }

  /** `s` with every element after its first occurrence dropped. */
  function FirstOccurrences(s: seq<Gtin13>): seq<Gtin13>
  {
    if s == [] then []
    else
      var r := FirstOccurrences(s[..|s| - 1]);
      if s[|s| - 1] in r then r else r + [s[|s| - 1]]
  }

  /** The sum of the SHIPPING positions' gross prices. */
  function ShippingTotal(ps: seq<RowOrderPosition>): real
  {
    if ps == [] then 0.0
    else
      var p := ps[|ps| - 1];
      ShippingTotal(ps[..|ps| - 1]) + (if p.rowOrderPositionType == SHIPPING then p.priceGross else 0.0)
  }

  /** The sum of the line totals. */
  function SumOfLineTotals(lines: seq<Line>): real
  {
    if lines == [] then 0.0 else SumOfLineTotals(lines[..|lines| - 1]) + lines[|lines| - 1].totalPerItemPrice
  }

  predicate Distinct(s: seq<Gtin13>)
  {
    forall i, j :: 0 <= i < j < |s| ==> s[i] != s[j]
  }

  /** The first ARTICLE position with GTIN-13 `g`, if there is one. */
  function FirstArticle(ps: seq<RowOrderPosition>, g: Gtin13): (r: Option<RowOrderPosition>)
    ensures r.Some? ==> r.value.rowOrderPositionType == ARTICLE && r.value.gtin13 == g
  {
    if ps == [] then None
    else
      var p := ps[|ps| - 1];
      var r := FirstArticle(ps[..|ps| - 1], g);
      if r.Some? then r
      else if p.rowOrderPositionType == ARTICLE && p.gtin13 == g then Some(p)
      else None
  }

  /** The sum, over the ARTICLE positions, of the gross price of the first ARTICLE position with the same GTIN-13. */
  function FirstPriceCosts(ps: seq<RowOrderPosition>): real
  {
    if ps == [] then 0.0
    else
      var p := ps[|ps| - 1];
      FirstPriceCosts(ps[..|ps| - 1]) +
        match FirstArticle(ps, p.gtin13)
        case Some(first) => if p.rowOrderPositionType == ARTICLE then first.priceGross else 0.0
        case None => 0.0
  }

  // ---- What the fold keeps ----

  /** FirstOccurrences keeps every element once and nothing else. */
  lemma {:induction false} FirstOccurrencesDistinct(s: seq<Gtin13>)
    ensures Distinct(FirstOccurrences(s))
    ensures forall x :: x in FirstOccurrences(s) <==> x in s
  {
    if s != [] {
      FirstOccurrencesDistinct(s[..|s| - 1]);
      assert s == s[..|s| - 1] + [s[|s| - 1]];
    }
  }

  /** Aggregating one more position is one more Step. */
  lemma AggregateSnoc(ps: seq<RowOrderPosition>)
    requires ps != []
    ensures Aggregate(ps) == Step(Aggregate(ps[..|ps| - 1]), ps[|ps| - 1])
    ensures ArticleGtins(ps) == ArticleGtins(ps[..|ps| - 1]) + ArticleGtinOf(ps[|ps| - 1])
  {
  }

  /** Appending one element adds one to its count and nothing to any other. */
  lemma CountSnoc(a: seq<Gtin13>, g: Gtin13)
    ensures forall x :: Count(a + [g], x) == Count(a, x) + (if x == g then 1 else 0)
  {
    assert (a + [g])[..|a|] == a;
  }

  /** One Step keeps the lines in first-seen order of the ARTICLE GTIN-13s. */
  lemma StepFirstSeenOrder(s: Summary, a: seq<Gtin13>, p: RowOrderPosition)
    requires Gtins(s.lines) == FirstOccurrences(a)
    ensures Gtins(Step(s, p).lines) == FirstOccurrences(a + ArticleGtinOf(p))
  {
    if p.rowOrderPositionType == ARTICLE {
      FirstOccurrencesDistinct(a);
      var r := StepArticle(s, p);
      match FirstIndexOf(s.lines, p.gtin13)
      case None =>
        assert p.gtin13 !in Gtins(s.lines);
      case Some(k) =>
        assert p.gtin13 in Gtins(s.lines);
        assert Gtins(r.lines) == Gtins(s.lines);
    } else {
      assert a + ArticleGtinOf(p) == a;
    }
  }

  /**
    The lines are the ARTICLE positions' GTIN-13s in the order each was first
    seen, each once: SHIPPING and other positions never add a line, and a
    repeated GTIN-13 updates its line instead of adding one.
  */
  lemma {:induction false} AggregateFirstSeenOrder(ps: seq<RowOrderPosition>)
    ensures Gtins(Aggregate(ps).lines) == FirstOccurrences(ArticleGtins(ps))
  {
    if ps != [] {
      var init := ps[..|ps| - 1];
      AggregateFirstSeenOrder(init);
      AggregateSnoc(ps);
      StepFirstSeenOrder(Aggregate(init), ArticleGtins(init), ps[|ps| - 1]);
    }
  }

  /** No two lines share a GTIN-13, and a GTIN-13 has a line iff some ARTICLE position carries it. */
  lemma AggregateGtinsDistinct(ps: seq<RowOrderPosition>)
    ensures Distinct(Gtins(Aggregate(ps).lines))
    ensures forall g :: g in Gtins(Aggregate(ps).lines) <==>
      exists i :: 0 <= i < |ps| && ps[i].rowOrderPositionType == ARTICLE && ps[i].gtin13 == g
  {
    AggregateFirstSeenOrder(ps);
    FirstOccurrencesDistinct(ArticleGtins(ps));
  }

  /** Each line's quantity is how often its GTIN-13 occurs in `a`. */
  ghost predicate QuantitiesCount(lines: seq<Line>, a: seq<Gtin13>)
  {
    forall i :: 0 <= i < |lines| ==> lines[i].quantity == Count(a, lines[i].gtin13)
  }

  /** One Step keeps each quantity equal to the count of its GTIN-13 among the ARTICLE positions. */
  lemma StepQuantities(s: Summary, a: seq<Gtin13>, p: RowOrderPosition)
    requires Distinct(Gtins(s.lines))
    requires forall g :: g in Gtins(s.lines) <==> g in a
    requires QuantitiesCount(s.lines, a)
    ensures QuantitiesCount(Step(s, p).lines, a + ArticleGtinOf(p))
  {
    if p.rowOrderPositionType == ARTICLE {
      CountSnoc(a, p.gtin13);
      match FirstIndexOf(s.lines, p.gtin13)
      case None =>
        assert p.gtin13 !in Gtins(s.lines);
      case Some(k) =>
        assert forall i :: 0 <= i < |s.lines| && i != k ==> s.lines[i].gtin13 != p.gtin13 by {
          forall i | 0 <= i < |s.lines| && i != k ensures s.lines[i].gtin13 != p.gtin13 {
            assert Gtins(s.lines)[i] == s.lines[i].gtin13 && Gtins(s.lines)[k] == s.lines[k].gtin13;
          }
        }
    } else {
      assert a + ArticleGtinOf(p) == a;
    }
  }

  /** Each line's quantity is the number of ARTICLE positions with its GTIN-13. */
  lemma {:induction false} AggregateQuantities(ps: seq<RowOrderPosition>)
    ensures QuantitiesCount(Aggregate(ps).lines, ArticleGtins(ps))
  {
    if ps != [] {
      var init := ps[..|ps| - 1];
      AggregateQuantities(init);
      AggregateSnoc(ps);
      AggregateGtinsDistinct(init);
      AggregateFirstSeenOrder(init);
      FirstOccurrencesDistinct(ArticleGtins(init));
      StepQuantities(Aggregate(init), ArticleGtins(init), ps[|ps| - 1]);
    }
  }

  /** Every line total is its single price times its quantity. */
  ghost predicate LineTotalsHold(lines: seq<Line>)
  {
    forall i :: 0 <= i < |lines| ==> lines[i].totalPerItemPrice == lines[i].singlePrice * lines[i].quantity as real
  }

  lemma StepLineTotals(s: Summary, p: RowOrderPosition)
    requires LineTotalsHold(s.lines)
    ensures LineTotalsHold(Step(s, p).lines)
  {
    if p.rowOrderPositionType == ARTICLE {
      var r := StepArticle(s, p);
      match FirstIndexOf(s.lines, p.gtin13)
      case None =>
        assert r.lines == s.lines + [NewLine(p)];
        assert NewLine(p).totalPerItemPrice == NewLine(p).singlePrice * 1 as real;
      case Some(k) =>
        assert r.lines == s.lines[k := Bump(s.lines[k])];
    }
  }

  /** Every line total is its single price times its quantity. */
  lemma {:induction false} AggregateLineTotals(ps: seq<RowOrderPosition>)
    ensures LineTotalsHold(Aggregate(ps).lines)
  {
    if ps != [] {
      AggregateLineTotals(ps[..|ps| - 1]);
      AggregateSnoc(ps);
      StepLineTotals(Aggregate(ps[..|ps| - 1]), ps[|ps| - 1]);
    }
  }

  /** Replacing one line changes the sum of line totals by the difference of the two totals. */
  lemma {:induction false} SumOfLineTotalsUpdate(lines: seq<Line>, k: nat, l: Line)
    requires k < |lines|
    ensures SumOfLineTotals(lines[k := l]) == SumOfLineTotals(lines) - lines[k].totalPerItemPrice + l.totalPerItemPrice
  {
    var n := |lines| - 1;
    if k < n {
      SumOfLineTotalsUpdate(lines[..n], k, l);
      assert lines[k := l][..n] == lines[..n][k := l];
    } else {
      assert lines[k := l][..n] == lines[..n];
    }
  }

  /** One more item adds the single price to a line total that is single price times quantity. */
  lemma BumpAddsSinglePrice(l: Line)
    requires l.totalPerItemPrice == l.singlePrice * l.quantity as real
    ensures Bump(l).totalPerItemPrice == l.totalPerItemPrice + l.singlePrice
  {
    assert l.singlePrice * (l.quantity + 1) as real == l.singlePrice * l.quantity as real + l.singlePrice;
  }

  /** Bumping a line whose total is single price times quantity adds its single price to the sum of line totals. */
  lemma BumpTotalCosts(lines: seq<Line>, k: nat)
    requires k < |lines| && LineTotalsHold(lines)
    ensures SumOfLineTotals(lines[k := Bump(lines[k])]) == SumOfLineTotals(lines) + lines[k].singlePrice
  {
    BumpAddsSinglePrice(lines[k]);
    SumOfLineTotalsUpdate(lines, k, Bump(lines[k]));
  }

  /** One Step keeps totalCosts equal to the sum of the line totals. */
  lemma StepTotalCosts(s: Summary, p: RowOrderPosition)
    requires LineTotalsHold(s.lines) && s.totalCosts == SumOfLineTotals(s.lines)
    ensures Step(s, p).totalCosts == SumOfLineTotals(Step(s, p).lines)
  {
    if p.rowOrderPositionType == ARTICLE {
      match FirstIndexOf(s.lines, p.gtin13)
      case None =>
        assert (s.lines + [NewLine(p)])[..|s.lines|] == s.lines;
      case Some(k) =>
        BumpTotalCosts(s.lines, k);
        assert StepArticle(s, p).lines == s.lines[k := Bump(s.lines[k])];
    }
  }

  /** totalCosts is the sum of the line totals, that is of single price times quantity. */
  lemma {:induction false} AggregateTotalCosts(ps: seq<RowOrderPosition>)
    ensures Aggregate(ps).totalCosts == SumOfLineTotals(Aggregate(ps).lines)
  {
    if ps != [] {
      var init := ps[..|ps| - 1];
      AggregateTotalCosts(init);
      AggregateLineTotals(init);
      AggregateSnoc(ps);
      StepTotalCosts(Aggregate(init), ps[|ps| - 1]);
    }
  }

  /** shippingCosts is the sum of the SHIPPING positions' gross prices. */
  lemma {:induction false} AggregateShippingCosts(ps: seq<RowOrderPosition>)
    ensures Aggregate(ps).shippingCosts == ShippingTotal(ps)
  {
    if ps != [] {
      AggregateShippingCosts(ps[..|ps| - 1]);
    }
  }

  /** Each line carries the single price and the name of the first ARTICLE position with its GTIN-13. */
  ghost predicate PricesFromFirst(lines: seq<Line>, ps: seq<RowOrderPosition>)
  {
    forall i :: 0 <= i < |lines| ==>
      && FirstArticle(ps, lines[i].gtin13).Some?
      && lines[i].singlePrice == FirstArticle(ps, lines[i].gtin13).value.priceGross
      && lines[i].name == FirstArticle(ps, lines[i].gtin13).value.name
  }

  /** There is a first ARTICLE position with GTIN-13 `g` iff some ARTICLE position carries `g`. */
  lemma {:induction false} FirstArticleFound(ps: seq<RowOrderPosition>)
    ensures forall g :: FirstArticle(ps, g).Some? <==> g in ArticleGtins(ps)
  {
    if ps != [] {
      FirstArticleFound(ps[..|ps| - 1]);
      AggregateSnoc(ps);
    }
  }

  /** One more position leaves the first ARTICLE position of a GTIN-13 already seen as it was. */
  lemma FirstArticleSnoc(ps: seq<RowOrderPosition>)
    requires ps != []
    ensures forall g :: FirstArticle(ps[..|ps| - 1], g).Some? ==> FirstArticle(ps, g) == FirstArticle(ps[..|ps| - 1], g)
    ensures forall g :: FirstArticle(ps[..|ps| - 1], g).None? ==>
      FirstArticle(ps, g) == if ps[|ps| - 1].rowOrderPositionType == ARTICLE && ps[|ps| - 1].gtin13 == g then Some(ps[|ps| - 1]) else None
  {
  }

  /** A new GTIN-13 gets the first ARTICLE position's price and name; the other lines keep theirs. */
  lemma {:induction false} AppendSinglePrices(s: Summary, ps: seq<RowOrderPosition>)
    requires ps != [] && ps[|ps| - 1].rowOrderPositionType == ARTICLE
    requires FirstIndexOf(s.lines, ps[|ps| - 1].gtin13).None?
    requires PricesFromFirst(s.lines, ps[..|ps| - 1])
    requires forall g :: FirstArticle(ps[..|ps| - 1], g).Some? ==> g in Gtins(s.lines)
    ensures FirstArticle(ps, ps[|ps| - 1].gtin13) == Some(ps[|ps| - 1])
    ensures PricesFromFirst(s.lines + [NewLine(ps[|ps| - 1])], ps)
  {
    var p := ps[|ps| - 1];
    var lines := s.lines + [NewLine(p)];
    FirstArticleSnoc(ps);
    assert p.gtin13 !in Gtins(s.lines);
    forall i | 0 <= i < |lines|
      ensures FirstArticle(ps, lines[i].gtin13).Some?
      ensures lines[i].singlePrice == FirstArticle(ps, lines[i].gtin13).value.priceGross
      ensures lines[i].name == FirstArticle(ps, lines[i].gtin13).value.name
    {
      if i < |s.lines| {
        assert lines[i] == s.lines[i];
      }
    }
  }

  /** Bumping a line keeps every line's price and name. */
  lemma {:induction false} BumpSinglePrices(s: Summary, ps: seq<RowOrderPosition>, k: nat)
    requires ps != [] && k < |s.lines| && s.lines[k].gtin13 == ps[|ps| - 1].gtin13
    requires PricesFromFirst(s.lines, ps[..|ps| - 1])
    ensures FirstArticle(ps, ps[|ps| - 1].gtin13) == FirstArticle(ps[..|ps| - 1], s.lines[k].gtin13)
    ensures PricesFromFirst(s.lines[k := Bump(s.lines[k])], ps)
  {
    var lines := s.lines[k := Bump(s.lines[k])];
    FirstArticleSnoc(ps);
    forall i | 0 <= i < |lines|
      ensures FirstArticle(ps, lines[i].gtin13).Some?
      ensures lines[i].singlePrice == FirstArticle(ps, lines[i].gtin13).value.priceGross
      ensures lines[i].name == FirstArticle(ps, lines[i].gtin13).value.name
    {
      assert lines[i].gtin13 == s.lines[i].gtin13 && lines[i].singlePrice == s.lines[i].singlePrice;
    }
  }

  /** One Step keeps every line's single price and name those of the first ARTICLE position with its GTIN-13. */
  lemma {:induction false} StepSinglePrices(s: Summary, ps: seq<RowOrderPosition>)
    requires ps != []
    requires PricesFromFirst(s.lines, ps[..|ps| - 1])
    requires forall g :: FirstArticle(ps[..|ps| - 1], g).Some? ==> g in Gtins(s.lines)
    ensures PricesFromFirst(Step(s, ps[|ps| - 1]).lines, ps)
    ensures ps[|ps| - 1].rowOrderPositionType == ARTICLE ==>
      Step(s, ps[|ps| - 1]).totalCosts == s.totalCosts + FirstArticle(ps, ps[|ps| - 1].gtin13).value.priceGross
  {
    var p := ps[|ps| - 1];
    if p.rowOrderPositionType == ARTICLE {
      match FirstIndexOf(s.lines, p.gtin13)
      case None =>
        AppendSinglePrices(s, ps);
      case Some(k) =>
        BumpSinglePrices(s, ps, k);
    } else {
      FirstArticleSnoc(ps);
      assert Step(s, p).lines == s.lines;
    }
  }

  /**
    A line's single price and name are those of the first ARTICLE position
    with its GTIN-13: a later position with the same GTIN-13 and another
    price or name only adds to the quantity.
  */
  lemma {:induction false} AggregateSinglePrices(ps: seq<RowOrderPosition>)
    ensures PricesFromFirst(Aggregate(ps).lines, ps)
    ensures Aggregate(ps).totalCosts == FirstPriceCosts(ps)
  {
    if ps != [] {
      var init := ps[..|ps| - 1];
      AggregateSinglePrices(init);
      AggregateSnoc(ps);
      AggregateFirstSeenOrder(init);
      FirstOccurrencesDistinct(ArticleGtins(init));
      FirstArticleFound(init);
      StepSinglePrices(Aggregate(init), ps);
    }
  }

  /** Three ARTICLE positions with one GTIN-13 at 10.00 give one line: 3 items, 30.00, and 30.00 in total. */
  lemma ThreeEqualArticles(name: string, gtin: Gtin13)
    ensures var p := RowOrderPosition(gtin, name, 10.0, ARTICLE);
      Aggregate([p, p, p]) == Summary([Line(10.0, 30.0, 3, name, gtin)], 30.0, 0.0)
  {
    var p := RowOrderPosition(gtin, name, 10.0, ARTICLE);
    assert [p, p, p][..2] == [p, p] && [p, p][..1] == [p] && [p][..0] == [];
    var one, two := Line(10.0, 10.0, 1, name, gtin), Line(10.0, 20.0, 2, name, gtin);
    assert Fold(Empty, [p]) == Step(Fold(Empty, []), p);
    assert Aggregate([p]) == Step(Empty, p) == Summary([one], 10.0, 0.0);
    assert Aggregate([p, p]) == Step(Summary([one], 10.0, 0.0), p) == Summary([two], 20.0, 0.0);
    assert Aggregate([p, p, p]) == Step(Summary([two], 20.0, 0.0), p);
  }

  // ---- The generator on objects ----

  /** CustomerFeedbackSentModel.Position: one article line, updated in place. */
  class Position {
    var singlePrice: real
    var totalPerItemPrice: real
    var quantity: nat
    var name: string
    var gtin13: Gtin13

    function AsLine(): Line
      reads this
    {
      Line(singlePrice, totalPerItemPrice, quantity, name, gtin13)
    }

    /** createPosition: one item of the order position `p`. */
    constructor (p: RowOrderPosition)
      ensures AsLine() == NewLine(p)
    {
      singlePrice := p.priceGross;
      totalPerItemPrice := p.priceGross;
      quantity := 1;
      name := p.name;
      gtin13 := p.gtin13;
    }
  }

  /**
    CustomerFeedbackSentModel, reduced to the fields the fold updates: the
    list of positions `oip` and the two totals. `Lines` is the value of each
    position, kept in step by every method.
  */
  class CustomerFeedbackSentModel {
    var oip: seq<Position>
    var totalCosts: real
    var shippingCosts: real
    ghost var Lines: seq<Line>

    /** The positions are distinct objects and `Lines` holds their values. */
    ghost predicate Valid()
      reads this, oip
    {
      && |Lines| == |oip|
      && (forall i, j :: 0 <= i < j < |oip| ==> oip[i] != oip[j])
      && (forall i :: 0 <= i < |oip| ==> oip[i].AsLine() == Lines[i])
    }

    ghost function Model(): Summary
      reads this
    {
      Summary(Lines, totalCosts, shippingCosts)
    }

    /** The totals initialisation of createCustomerFeedbackSentModel: no positions, both totals zero. */
    constructor ()
      ensures Valid() && oip == [] && Model() == Empty
    {
      oip := [];
      totalCosts := 0.0;
      shippingCosts := 0.0;
      Lines := [];
    }
  }

  /** updateExistingPosition: `oip`, the k-th position of `info`, gets one more item. */
  method UpdateExistingPosition(oip: Position, info: CustomerFeedbackSentModel, ghost k: nat)
    requires info.Valid() && k < |info.oip| && info.oip[k] == oip
    modifies oip, info
    ensures info.Valid() && info.oip == old(info.oip)
    ensures info.Lines == old(info.Lines)[k := Bump(old(info.Lines[k]))]
    ensures info.totalCosts == old(info.totalCosts) + old(oip.singlePrice)
    ensures info.shippingCosts == old(info.shippingCosts)
  {
    ghost var before := oip.AsLine();
    assert before == info.Lines[k];
    oip.quantity := oip.quantity + 1;
    oip.totalPerItemPrice := oip.singlePrice * oip.quantity as real;
    info.totalCosts := info.totalCosts + oip.singlePrice;
    assert oip.AsLine() == Bump(before);
    info.Lines := info.Lines[k := oip.AsLine()];
  }

  /**
    processArticlePosition: the first position with the GTIN-13 of `p` gets
    one more item; with none, a new position is appended.
  */
  method ProcessArticlePosition(p: RowOrderPosition, info: CustomerFeedbackSentModel)
    requires info.Valid()
    modifies info, info.oip
    ensures info.Valid()
    ensures info.Model() == StepArticle(old(info.Model()), p)
    ensures forall o :: o in info.oip ==> o in old(info.oip) || fresh(o)
  {
    var customerInfoPosition := new Position(p);
    var found := false;
    var i := 0;
    while i < |info.oip|
      invariant 0 <= i <= |info.oip|
      invariant !found && info.oip == old(info.oip) && info.Valid()
      invariant info.Model() == old(info.Model())
      invariant forall j :: 0 <= j < i ==> info.Lines[j].gtin13 != p.gtin13
    {
      var oip := info.oip[i];
      if oip.gtin13 == p.gtin13 {
        assert FirstIndexOf(info.Lines, p.gtin13) == Some(i);
        UpdateExistingPosition(oip, info, i);
        found := true;
        break;
      }
      i := i + 1;
    }
    if !found {
      info.totalCosts := info.totalCosts + customerInfoPosition.singlePrice;
      info.oip := info.oip + [customerInfoPosition];
      info.Lines := info.Lines + [customerInfoPosition.AsLine()];
    }
  }

  /** populateOrderPositions: the order's positions folded into `info`, in order. */
  method PopulateOrderPositions(order: RowOrder, info: CustomerFeedbackSentModel)
    requires info.Valid()
    modifies info, info.oip
    ensures info.Valid()
    ensures info.Model() == Fold(old(info.Model()), order.rowsOrderPosition)
  {
    var ps := order.rowsOrderPosition;
    for i := 0 to |ps|
      invariant info.Valid()
      invariant info.Model() == Fold(old(info.Model()), ps[..i])
      invariant forall o :: o in info.oip ==> o in old(info.oip) || fresh(o)
    {
      var rowOrderPosition := ps[i];
      ghost var before := info.Model();
      if rowOrderPosition.rowOrderPositionType == ARTICLE {
        assert forall j :: 0 <= j < |info.oip| ==> info.oip[j] in old(info.oip) || fresh(info.oip[j]);
        ProcessArticlePosition(rowOrderPosition, info);
      } else if rowOrderPosition.rowOrderPositionType == SHIPPING {
        info.shippingCosts := info.shippingCosts + rowOrderPosition.priceGross;
      }
      assert info.Model() == Step(before, rowOrderPosition);
      FoldSnoc(old(info.Model()), ps, i);
    }
    assert ps[..|ps|] == ps;
  }

  /** A value of the result map. */
  datatype FeedbackValue = FeedbackModel(model: CustomerFeedbackSentModel) | Id(id: int)

  const CUSTOMER_FEEDBACK_KEY := "customerFeedback"
  const PLATFORM_ACCOUNT_ID_KEY := "platformAccountId"
  const RESELLER_ID_KEY := "resellerId"
  const CUSTOMER_FEEDBACK_MISSING := "customerFeedback is missing"

  /**
    generateModel: a null parameter map fails on the lookup, a missing or null
    "customerFeedback" order is rejected; otherwise the order is aggregated.
  */
  method GenerateModel(parameters: Option<Parameters>) returns (r: Result<map<string, FeedbackValue>, JavaException>)
    ensures parameters.None? ==> r == Failure(NullPointer)
    ensures parameters.Some? && !parameters.value.customerFeedback.Present? ==>
      r == Failure(IllegalArgument(CUSTOMER_FEEDBACK_MISSING))
    ensures parameters.Some? && parameters.value.customerFeedback.Present? ==>
      var order := parameters.value.customerFeedback.value;
      && r.Success?
      && r.value.Keys == {CUSTOMER_FEEDBACK_KEY, PLATFORM_ACCOUNT_ID_KEY, RESELLER_ID_KEY}
      && r.value[PLATFORM_ACCOUNT_ID_KEY] == Id(order.platformAccountId)
      && r.value[RESELLER_ID_KEY] == Id(order.resellerId)
      && r.value[CUSTOMER_FEEDBACK_KEY].FeedbackModel?
      && fresh(r.value[CUSTOMER_FEEDBACK_KEY].model)
      && r.value[CUSTOMER_FEEDBACK_KEY].model.Valid()
      && r.value[CUSTOMER_FEEDBACK_KEY].model.Model() == Aggregate(order.rowsOrderPosition)
  {
    if parameters.None? {
      return Failure(NullPointer);
    }
    if !parameters.value.customerFeedback.Present? {
      return Failure(IllegalArgument(CUSTOMER_FEEDBACK_MISSING));
    }
    var rowOrder := parameters.value.customerFeedback.value;
    var customerInfo := new CustomerFeedbackSentModel();
    PopulateOrderPositions(rowOrder, customerInfo);
    var m := map[
      CUSTOMER_FEEDBACK_KEY := FeedbackModel(customerInfo),
      PLATFORM_ACCOUNT_ID_KEY := Id(rowOrder.platformAccountId),
      RESELLER_ID_KEY := Id(rowOrder.resellerId)];
    return Success(m);
  }
}
