/** How near the amounts of a bill are to what its columns say (invoice/invoice.go, invoice/xml.go). */
module Payable {
  import opened Text
  import opened Amounts

  predicate Within(printed: real, exact: real, slack: real) {
    -slack <= printed - exact <= slack
  }

  /** So many percent of an amount. */
  function Percent(amount: real, rate: real): real {
    amount * rate / 100.0
  }

  /** What is below zero is rounded up, by less than one and a half hundredths. */
  lemma RoundsUpBelowZero(v: real)
    requires v < 0.0
    ensures 0.0 < RoundTo2(v) - v < 0.015
  {
  }

  /** The rounding of an amount, above and below zero. */
  predicate Rounds(printed: real, exact: real) {
    if exact >= 0.0 then printed >= 0.0 && -0.005 < printed - exact <= 0.005 else 0.0 < printed - exact < 0.015
  }

  lemma RoundTo2Rounds(v: real)
    ensures Rounds(RoundTo2(v), v)
  {
    hide RoundTo2;
    if v >= 0.0 { RoundsToNearest(v); } else { RoundsUpBelowZero(v); }
  }

  /** The amounts of one line: its net amount is the price of its quantity less its discount, its tax the percentage of
      that net amount, and its gross amount the two together. */
  lemma LineAmounts(l: Line)
    ensures Rounds(l.NetAmount(), l.quantity * l.unitPrice - l.discount)
    ensures Rounds(l.TaxAmount(), Percent(l.NetAmount(), l.percent))
    ensures Rounds(l.TotalWithTax(), l.NetAmount() + l.TaxAmount())
  {
    hide Rounds, RoundTo2;
    RoundTo2Rounds(l.Net());
    RoundTo2Rounds(l.Tax());
    RoundTo2Rounds(l.NetAmount() + l.TaxAmount());
    assert l.Net() == l.quantity * l.unitPrice - l.discount;
    assert l.Tax() == Percent(l.NetAmount(), l.percent);
  }

  // ---------------------------------------------------------------- a bill

  /** The price of a product's quantity. A missing quantity is one, a missing price nothing. */
  function Worth(p: Product): real {
    match (p.quantity, p.price)
    case (Some(quantity), Some(price)) => quantity * price
    case (None, Some(price)) => price
    case (_, None) => 0.0
  }

  /** A missing percent is the standard rate. */
  function Rate(p: Product): real {
    match p.vat
    case Some(percent) => percent
    case None => 15.0
  }

  function WorthOf(products: seq<Product>): real {
    if products == [] then 0.0 else WorthOf(products[..|products| - 1]) + Worth(products[|products| - 1])
  }

  function TaxDue(products: seq<Product>): real {
    if products == [] then 0.0
    else
      var p := products[|products| - 1];
      TaxDue(products[..|products| - 1]) + Percent(Worth(p), Rate(p))
  }

  function RateSum(products: seq<Product>): real {
    if products == [] then 0.0 else RateSum(products[..|products| - 1]) + Rate(products[|products| - 1])
  }

  /** The line of a product. */
  function LineOf(p: Product): Line {
    Line(p.Quantity(), p.Price(), 0.0, "S", p.Vat())
  }

  lemma LineIsNear(p: Product)
    requires p.Quantity() > 0.0 && p.Price() >= 0.0
    ensures LineOf(p).NetAmount() >= 0.0 && Within(LineOf(p).NetAmount(), Worth(p), 0.005)
    ensures Rate(p) >= 0.0 ==>
      Within(LineOf(p).TaxAmount(), Percent(Worth(p), Rate(p)), 0.005 + 0.00005 * Rate(p))
  {
    hide Percent, Line.NetAmount, Line.TaxAmount, Rounds, Within, Worth, Rate, Product.Quantity, Product.Price,
      Product.Vat;
    NetIsWorth(p);
    NetNear(LineOf(p).NetAmount(), Worth(p));
    if Rate(p) >= 0.0 { TaxedNear(LineOf(p).NetAmount(), Worth(p), Rate(p), LineOf(p).TaxAmount()); }
  }

  lemma NetIsWorth(p: Product)
    requires p.Quantity() > 0.0 && p.Price() >= 0.0
    ensures var l := LineOf(p);
      && Worth(p) >= 0.0 && l.percent == Rate(p)
      && Rounds(l.NetAmount(), Worth(p)) && Rounds(l.TaxAmount(), Percent(l.NetAmount(), Rate(p)))
  {
    var l := LineOf(p);
    LineAmounts(l);
    hide Percent, Rounds, Line.NetAmount, Line.TaxAmount;
    ProductIsNotNegative(p.Quantity(), p.Price());
    assert l.quantity * l.unitPrice - l.discount == Worth(p);
  }

  lemma NetNear(net: real, worth: real)
    requires worth >= 0.0 && Rounds(net, worth)
    ensures net >= 0.0 && Within(net, worth, 0.005)
  {
  }

  lemma TaxedNear(net: real, worth: real, rate: real, tax: real)
    requires rate >= 0.0 && net >= 0.0 && Within(net, worth, 0.005) && Rounds(tax, Percent(net, rate))
    ensures Within(tax, Percent(worth, rate), 0.005 + 0.00005 * rate)
  {
    Scales(net, worth, rate);
    PercentIsNotNegative(net, rate);
    hide Percent;
    Adds(tax, Percent(net, rate), Percent(worth, rate), 0.00005 * rate);
  }

  lemma Adds(tax: real, rounded: real, exact: real, slack: real)
    requires rounded >= 0.0 && Rounds(tax, rounded) && -slack <= rounded - exact <= slack
    ensures Within(tax, exact, 0.005 + slack)
  {
  }

  lemma ProductIsNotNegative(a: real, b: real)
    requires a >= 0.0 && b >= 0.0
    ensures a * b >= 0.0
  {
  }

  lemma PercentIsNotNegative(a: real, rate: real)
    requires a >= 0.0 && rate >= 0.0
    ensures Percent(a, rate) >= 0.0
  {
    ProductIsNotNegative(a, rate);
  }

  lemma Scales(a: real, b: real, rate: real)
    requires Within(a, b, 0.005) && rate >= 0.0
    ensures -0.00005 * rate <= Percent(a, rate) - Percent(b, rate) <= 0.00005 * rate
  {
    ProductIsNotNegative(0.005 - (a - b), rate);
    ProductIsNotNegative(0.005 + (a - b), rate);
    assert (0.005 - (a - b)) * rate == 0.005 * rate - a * rate + b * rate;
    assert (0.005 + (a - b)) * rate == 0.005 * rate + a * rate - b * rate;
  }

  lemma OneMoreNear(a: real, b: real, slack: real, c: real, d: real, more: real)
    requires Within(a, b, slack) && Within(c, d, more)
    ensures Within(a + c, b + d, slack + more)
  {
  }

  lemma {:induction false} NetsAreNear(products: seq<Product>)
    requires forall i | 0 <= i < |products| :: products[i].Quantity() > 0.0 && products[i].Price() >= 0.0
    ensures Within(Money(NetSum(LinesOf(products))), WorthOf(products), 0.005 * |products| as real)
  {
    hide Line.NetAmount, Line.TaxAmount, Line.NetCents, Line.TaxCents, TaxSum, Money, Worth, Product.Quantity,
      Product.Price, Product.Vat;
    if products == [] {
      NoMoney();
    } else {
      var n := |products| - 1;
      NetsAreNear(products[..n]);
      LineIsNear(products[n]);
      LastLine(products);
      hide NetSum, LinesOf;
      OneMoreNear(Money(NetSum(LinesOf(products[..n]))), WorthOf(products[..n]), 0.005 * n as real,
                  LineOf(products[n]).NetAmount(), Worth(products[n]), 0.005);
    }
  }

  lemma LastLine(products: seq<Product>)
    requires products != []
    ensures var n := |products| - 1; var (front, l) := (LinesOf(products[..n]), LineOf(products[n]));
      && Money(NetSum(LinesOf(products))) == Money(NetSum(front)) + l.NetAmount()
      && Money(TaxSum(LinesOf(products))) == Money(TaxSum(front)) + l.TaxAmount()
  {
    hide NetSum, TaxSum, LinesOf, LineOf, Line.NetAmount, Line.TaxAmount, Money;
    LinesGrow(products);
    SumsGrow(LinesOf(products), |products| - 1);
  }

  lemma LinesGrow(products: seq<Product>)
    requires products != []
    ensures var (n, lines) := (|products| - 1, LinesOf(products));
      && lines[..n] == LinesOf(products[..n]) && lines[n] == LineOf(products[n]) && lines[..n + 1] == lines
  {
  }

  predicate NotBelowZero(products: seq<Product>) {
    forall i | 0 <= i < |products| :: Rate(products[i]) >= 0.0
  }

  /** Half a hundredth for each line, and half a hundredth of its percentage. */
  function TaxSlack(products: seq<Product>): real {
    0.005 * |products| as real + 0.00005 * RateSum(products)
  }

  lemma {:induction false} TaxesAreNear(products: seq<Product>)
    requires forall i | 0 <= i < |products| :: products[i].Quantity() > 0.0 && products[i].Price() >= 0.0
    requires NotBelowZero(products)
    ensures Within(Money(TaxSum(LinesOf(products))), TaxDue(products), TaxSlack(products))
  {
    hide Line.NetAmount, Line.TaxAmount, Money, Worth, Product.Quantity, Product.Price, Rate, Percent, LinesOf, TaxSum,
      TaxDue, TaxSlack, LineOf, Within;
    if products == [] {
      NothingDue();
      assert products == [];
    } else {
      var n := |products| - 1;
      TaxesAreNear(products[..n]);
      LineIsNear(products[n]);
      LastLine(products);
      TaxDueGrows(products);
      OneMoreNear(Money(TaxSum(LinesOf(products[..n]))), TaxDue(products[..n]), TaxSlack(products[..n]),
                  LineOf(products[n]).TaxAmount(), Percent(Worth(products[n]), Rate(products[n])),
                  0.005 + 0.00005 * Rate(products[n]));
    }
  }

  lemma NothingDue()
    ensures Within(Money(TaxSum(LinesOf([]))), TaxDue([]), TaxSlack([]))
  {
    NoMoney();
  }

  lemma TaxDueGrows(products: seq<Product>)
    requires products != []
    ensures var n := |products| - 1;
      && TaxDue(products) == TaxDue(products[..n]) + Percent(Worth(products[n]), Rate(products[n]))
      && TaxSlack(products) == TaxSlack(products[..n]) + (0.005 + 0.00005 * Rate(products[n]))
  {
    hide Percent, Worth, Rate;
  }

  /** Main result on amounts: the printed line extension of a verified bill is within half a hundredth per line of the
      price of its products, whatever their percents. */
  lemma {:induction false} LineExtensionIsNear(products: seq<Product>)
    requires Verified(products)
    ensures Within(PrintedTotals(BillInvoice(products)).lineExtension, WorthOf(products), 0.005 * |products| as real)
  {
    hide NetSum, LinesOf, Within, WorthOf, PrintedTotals, Money, Line.NetCents;
    NetsAreNear(products);
    NetsOfVerified(products);
    NetSumIsNotNegative(LinesOf(products));
    PrintedInCents(LinesOf(products));
  }

  lemma NetsOfVerified(products: seq<Product>)
    requires Verified(products)
    ensures forall i | 0 <= i < |products| :: LinesOf(products)[i].NetCents() >= 0
  {
    hide Line.NetCents;
    forall i | 0 <= i < |products|
      ensures LinesOf(products)[i].NetCents() >= 0
    {
      NetIsNotNegative(LinesOf(products)[i]);
    }
  }

  lemma RatesAreVats(products: seq<Product>)
    requires NotBelowZero(products)
    ensures forall i | 0 <= i < |products| :: products[i].Vat() >= 0.0
  {
    hide Product.Vat, Rate;
    forall i | 0 <= i < |products|
      ensures products[i].Vat() >= 0.0
    {
      RateIsVat(products[i]);
    }
  }

  lemma RateIsVat(p: Product)
    ensures Rate(p) == p.Vat()
  {
  }

  /** Main result on the payable amount: without negative percents it is within one hundredth for each line, and half
      a hundredth of its percentage, of the price of the products with their tax. */
  lemma {:induction false} PayableIsNear(products: seq<Product>)
    requires Verified(products) && NotBelowZero(products)
    ensures Within(PrintedTotals(BillInvoice(products)).payable, WorthOf(products) + TaxDue(products),
                   0.005 * |products| as real + TaxSlack(products))
  {
    hide NetSum, TaxSum, LinesOf, WorthOf, TaxDue, TaxSlack, PrintedTotals, Money, Line.NetCents, Line.TaxCents,
      NotNegative, NotBelowZero, Rate;
    NetsAreNear(products);
    TaxesAreNear(products);
    RatesAreVats(products);
    BillLines(products);
    PayableInCents(LinesOf(products));
  }

  lemma PayableInCents(lines: seq<Line>)
    requires NotNegative(lines)
    ensures PrintedTotals(Invoice(lines, 0.0, 0.0)).payable == Money(NetSum(lines)) + Money(TaxSum(lines))
  {
    hide Line.NetCents, Line.TaxCents, Positive, PrintedTotals, NetSum, TaxSum;
    NetsAreNotNegative(lines, Key(""));
    TaxesAreNotNegative(lines, Key(""));
    PrintedInCents(lines);
    MoneyAdds(NetSum(lines), TaxSum(lines));
  }

  // ---------------------------------------------------------------- a document discount

  /** What a document discount takes: the amount without tax is that of the lines less the discount, and the tax that of
      the lines less a share that is the discount's percentage, to half a hundredth, when both are positive. */
  lemma DiscountIsTaken(inv: Invoice) returns (share: real)
    ensures if inv.discount > 0.0 && inv.discountPercent > 0.0
            then Within(share, Percent(inv.discount, inv.discountPercent), 0.005) else share == 0.0
    ensures var (t, nets, taxes) := (PrintedTotals(inv), Money(NetSum(inv.lines)), Money(TaxSum(inv.lines)));
      && Rounds(t.lineExtension, nets)
      && Rounds(DocumentTaxable(inv), nets - inv.discount)
      && Rounds(DocumentTax(inv), taxes - share)
      && Rounds(t.taxExclusive, t.lineExtension - inv.discount)
      && Rounds(t.taxInclusive, t.taxExclusive + DocumentTax(inv)) && t.payable == t.taxInclusive
  {
    share := inv.DiscountTax();
    if inv.discount > 0.0 && inv.discountPercent > 0.0 { ShareIsNear(inv); }
    hide Percent, Rounds, RoundTo2, NetSum, TaxSum, Money, Invoice.DiscountTax, PrintedTotals;
    PrintedRounds(inv);
    RoundTo2Rounds(Money(NetSum(inv.lines)) - inv.discount);
    RoundTo2Rounds(Money(TaxSum(inv.lines)) - share);
  }

  lemma PrintedRounds(inv: Invoice)
    ensures var t := PrintedTotals(inv);
      && Rounds(t.lineExtension, Money(NetSum(inv.lines)))
      && Rounds(t.taxExclusive, t.lineExtension - inv.discount)
      && Rounds(t.taxInclusive, t.taxExclusive + DocumentTax(inv)) && t.payable == t.taxInclusive
  {
    hide Rounds, RoundTo2, NetSum, TaxSum, Money, DocumentTax;
    var t := PrintedTotals(inv);
    RoundTo2Rounds(Money(NetSum(inv.lines)));
    RoundTo2Rounds(t.lineExtension - inv.discount);
    RoundTo2Rounds(t.taxExclusive + DocumentTax(inv));
  }

  lemma ShareIsNear(inv: Invoice)
    requires inv.discount > 0.0 && inv.discountPercent > 0.0
    ensures Within(inv.DiscountTax(), Percent(inv.discount, inv.discountPercent), 0.005)
  {
    hide RoundTo2;
    PercentIsNotNegative(inv.discount, inv.discountPercent);
    RoundsToNearest(inv.DiscountShare());
    assert inv.DiscountShare() == Percent(inv.discount, inv.discountPercent);
  }
}
