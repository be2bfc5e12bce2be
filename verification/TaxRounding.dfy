/** What truncating basis-point division does to a payment's tax total. */
module TaxRounding {
  import opened Domain

  ghost predicate NonNegativeRates(taxes: TaxTable) {
    forall code :: code in taxes ==> 0 <= taxes[code].rateBps
  }

  // Exact tax in units of 1/10000 of a cent, and the number of divisions made.

  function RatesSum(codes: seq<TaxCode>, taxes: TaxTable): int {
    if codes == [] then 0 else
      var code := codes[|codes| - 1];
      RatesSum(codes[..|codes| - 1], taxes) + if code in taxes then taxes[code].rateBps else 0
  }

  function ExactTax(items: seq<LineItem>, taxes: TaxTable): int {
    if items == [] then 0 else
      var item := items[|items| - 1];
      ExactTax(items[..|items| - 1], taxes) + RatesSum(item.taxCodes, taxes) * item.amount
  }

  function Divisions(items: seq<LineItem>): nat {
    if items == [] then 0 else Divisions(items[..|items| - 1]) + |items[|items| - 1].taxCodes|
  }

  // ---------------------------------------------------------------------------------------------
  // The totals are sums
  // ---------------------------------------------------------------------------------------------

  lemma {:induction false} CodesAdd(a: seq<TaxCode>, b: seq<TaxCode>, amount: int, taxes: TaxTable)
    ensures CodesTax(a + b, amount, taxes) == CodesTax(a, amount, taxes) + CodesTax(b, amount, taxes)
  {
    if b == [] {
      assert a + b == a;
    } else {
      CodesAdd(a, b[..|b| - 1], amount, taxes);
      assert (a + b)[..|a + b| - 1] == a + b[..|b| - 1];
    }
  }

  lemma {:induction false} DiscountsAdd(a: seq<Discount>, b: seq<Discount>)
    ensures DiscountsSum(a + b) == DiscountsSum(a) + DiscountsSum(b)
  {
    if b == [] {
      assert a + b == a;
    } else {
      DiscountsAdd(a, b[..|b| - 1]);
      assert (a + b)[..|a + b| - 1] == a + b[..|b| - 1];
    }
  }

  /** Gross, taxes and discounts of two lists of items together are those of the lists added up. */
  lemma {:induction false} TotalsAdd(a: seq<LineItem>, b: seq<LineItem>, taxes: TaxTable)
    ensures ItemsGross(a + b) == ItemsGross(a) + ItemsGross(b)
    ensures ItemsTax(a + b, taxes) == ItemsTax(a, taxes) + ItemsTax(b, taxes)
    ensures ItemsDiscount(a + b) == ItemsDiscount(a) + ItemsDiscount(b)
  {
    if b == [] {
      assert a + b == a;
    } else {
      TotalsAdd(a, b[..|b| - 1], taxes);
      assert (a + b)[..|a + b| - 1] == a + b[..|b| - 1];
    }
  }

  /** With TotalsAdd, CodesAdd and DiscountsAdd, all there is to say about the totals: an item grosses its amount, is
      taxed one ten-thousandth of its amount per basis point of a known code, truncated toward zero, and discounted
      what its discounts say. */
  lemma TotalsOfOneItem(description: string, amount: int, code: TaxCode, discount: Discount, taxes: TaxTable)
    ensures var item := LineItem(description, amount, [code], [discount]);
            var tax := ItemsTax([item], taxes);
            && ItemsGross([item]) == amount && ItemsDiscount([item]) == discount.amount
            && (code !in taxes ==> tax == 0)
            && (code in taxes ==>
                  var product := taxes[code].rateBps * amount;
                  && (0 <= product ==> 10000 * tax <= product < 10000 * tax + 10000)
                  && (product <= 0 ==> 10000 * tax - 10000 < product <= 10000 * tax))
  {
    var item := LineItem(description, amount, [code], [discount]);
    var items, codes, discounts := [item], item.taxCodes, item.discounts;
    assert items[..0] == [] && codes[..0] == [] && discounts[..0] == [];
    assert CodesTax(codes, amount, taxes) == if code in taxes then Tax(taxes[code].rateBps, amount) else 0;
    assert DiscountsSum(discounts) == discount.amount;
    assert ItemsTax(items[..0], taxes) == 0;
  }

  // ---------------------------------------------------------------------------------------------
  // Rounding
  // ---------------------------------------------------------------------------------------------

  lemma Distribute(a: int, b: int, c: int)
    ensures (a + b) * c == a * c + b * c
  {
  }

  lemma DivisionLoss(rate: int, amount: int)
    ensures var lost := rate * amount - 10000 * Tax(rate, amount);
            && -9999 <= lost <= 9999
            && (0 <= rate && 0 <= amount ==> 0 <= lost)
  {
    var product := rate * amount;
    assert 0 <= rate && 0 <= amount ==> 0 <= product;
    assert Tax(rate, amount) == TruncDiv(product, BPS);
  }

  lemma {:induction false} CodesRounding(codes: seq<TaxCode>, amount: int, taxes: TaxTable)
    ensures var lost := RatesSum(codes, taxes) * amount - 10000 * CodesTax(codes, amount, taxes);
            && -9999 * |codes| <= lost <= 9999 * |codes|
            && (NonNegativeRates(taxes) && 0 <= amount ==> 0 <= lost)
  {
    if codes != [] {
      var init, code := codes[..|codes| - 1], codes[|codes| - 1];
      CodesRounding(init, amount, taxes);
      if code in taxes {
        Distribute(RatesSum(init, taxes), taxes[code].rateBps, amount);
        DivisionLoss(taxes[code].rateBps, amount);
      }
    }
  }

  /** Over a whole payment the truncation loses at most 9999/10000 of a unit per division, whatever the signs;
      with non-negative rates and amounts nothing is ever over-collected, so the remainder stays with the payee. */
  lemma {:induction false} TaxRoundingBound(items: seq<LineItem>, taxes: TaxTable)
    ensures var lost := ExactTax(items, taxes) - 10000 * ItemsTax(items, taxes);
            && -9999 * Divisions(items) <= lost <= 9999 * Divisions(items)
            && (NonNegativeRates(taxes) && (forall item :: item in items ==> 0 <= item.amount) ==> 0 <= lost)
  {
    if items != [] {
      var item := items[|items| - 1];
      TaxRoundingBound(items[..|items| - 1], taxes);
      CodesRounding(item.taxCodes, item.amount, taxes);
    }
  }

  /** Splitting an item's amount in two never raises its tax and lowers it by at most one unit per code. */
  lemma {:induction false} SplittingLowersTax(codes: seq<TaxCode>, a: nat, b: nat, taxes: TaxTable)
    requires NonNegativeRates(taxes)
    ensures var split := CodesTax(codes, a, taxes) + CodesTax(codes, b, taxes);
            split <= CodesTax(codes, a + b, taxes) <= split + |codes|
  {
    if codes != [] {
      var init, code := codes[..|codes| - 1], codes[|codes| - 1];
      SplittingLowersTax(init, a, b, taxes);
      if code in taxes {
        var rate := taxes[code].rateBps;
        assert 0 <= rate * a && 0 <= rate * b;
        assert rate * (a + b) == rate * a + rate * b;
      }
    }
  }

  lemma ScaleBound(rates: int, amount: int)
    requires rates <= 10000 && 0 <= amount
    ensures rates * amount <= 10000 * amount
  {
  }

  /** With item rates that sum to at most 100% and no discounts, the payee never owes. */
  lemma {:induction false} FullRatesLeaveNet(items: seq<LineItem>, taxes: TaxTable)
    requires NonNegativeRates(taxes)
    requires forall item :: item in items ==>
               0 <= item.amount && RatesSum(item.taxCodes, taxes) <= 10000 && item.discounts == []
    ensures 0 <= ItemsGross(items) - ItemsTax(items, taxes) - ItemsDiscount(items)
  {
    if items != [] {
      var item := items[|items| - 1];
      assert item in items;
      FullRatesLeaveNet(items[..|items| - 1], taxes);
      CodesRounding(item.taxCodes, item.amount, taxes);
      ScaleBound(RatesSum(item.taxCodes, taxes), item.amount);
    }
  }
}
