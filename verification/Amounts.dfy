/** Amounts of an invoice (invoice/invoice.go, invoice/xml.go, processor/bill.go), over exact reals. */
module Amounts {
  import opened Text

  // ---------------------------------------------------------------- rounding

  /** Conversion to an integer cuts toward zero. */
  function Truncated(v: real): int {
    if v >= 0.0 then v.Floor else -((-v).Floor)
  }

  /** An amount in hundredths. */
  function Money(cents: int): real {
    cents as real / 100.0
  }

  function RoundedCents(v: real): int {
    Truncated(v * 100.0 + 0.5)
  }

  function RoundTo2(v: real): real {
    Money(RoundedCents(v))
  }

  /** What is not negative is rounded to the nearest hundredth, halves up. */
  lemma RoundsToNearest(v: real)
    requires v >= 0.0
    ensures RoundTo2(v) >= 0.0 && -0.005 < RoundTo2(v) - v <= 0.005
  {
  }

  /** Whole hundredths are left as they are if and only if they are not negative. A negative one loses a hundredth. */
  lemma RoundsMoney(k: int)
    ensures RoundedCents(Money(k)) == if k >= 0 then k else k + 1
  {
    assert Money(k) * 100.0 == k as real;
    if k < 0 {
      assert (-(k as real + 0.5)).Floor == -k - 1;
    }
  }

  lemma MoneyAdds(j: int, k: int)
    ensures Money(j) + Money(k) == Money(j + k) && Money(j) - Money(k) == Money(j - k)
    ensures Money(j) == Money(k) <==> j == k
  {
  }

  // ---------------------------------------------------------------- lines

  datatype Line = Line(quantity: real, unitPrice: real, discount: real, category: string, percent: real)
  {
    function Net(): real {
      quantity * unitPrice - discount
    }

    function NetAmount(): real {
      RoundTo2(Net())
    }

    function Tax(): real {
      NetAmount() * percent / 100.0
    }

    function TaxAmount(): real {
      RoundTo2(Tax())
    }

    function TotalWithTax(): real {
      RoundTo2(NetAmount() + TaxAmount())
    }

    /** The same amounts in hundredths. */
    function NetCents(): int {
      RoundedCents(Net())
    }

    function TaxCents(): int {
      RoundedCents(Tax())
    }
  }

  lemma InCents(l: Line)
    ensures l.NetAmount() == Money(l.NetCents()) && l.TaxAmount() == Money(l.TaxCents())
  {
    hide RoundedCents, Money, Line.Net, Line.Tax;
  }

  function NetSum(lines: seq<Line>): int {
    if lines == [] then 0 else NetSum(lines[..|lines| - 1]) + lines[|lines| - 1].NetCents()
  }

  function TaxSum(lines: seq<Line>): int {
    if lines == [] then 0 else TaxSum(lines[..|lines| - 1]) + lines[|lines| - 1].TaxCents()
  }

  /** The printed gross amounts of the lines, added up. */
  function GrossSum(lines: seq<Line>): real {
    if lines == [] then 0.0 else GrossSum(lines[..|lines| - 1]) + lines[|lines| - 1].TotalWithTax()
  }

  datatype Invoice = Invoice(lines: seq<Line>, discount: real, discountPercent: real)
  {
    function DiscountShare(): real {
      discount * discountPercent / 100.0
    }

    function DiscountTax(): real {
      if discount > 0.0 && discountPercent > 0.0 then RoundTo2(DiscountShare()) else 0.0
    }

    /** The tax of the discount in hundredths. */
    function DiscountCents(): int {
      if discount > 0.0 && discountPercent > 0.0 then RoundedCents(DiscountShare()) else 0
    }
  }

  lemma SumsGrow(lines: seq<Line>, i: nat)
    requires i < |lines|
    ensures Money(NetSum(lines[..i + 1])) == Money(NetSum(lines[..i])) + lines[i].NetAmount()
    ensures Money(TaxSum(lines[..i + 1])) == Money(TaxSum(lines[..i])) + lines[i].TaxAmount()
  {
    InCents(lines[i]);
    assert lines[..i + 1][..i] == lines[..i];
    hide Line.NetAmount, Line.TaxAmount, Line.NetCents, Line.TaxCents, Money;
    MoneyAdds(NetSum(lines[..i]), lines[i].NetCents());
    MoneyAdds(TaxSum(lines[..i]), lines[i].TaxCents());
  }

  lemma NoSums(lines: seq<Line>)
    ensures Money(NetSum(lines[..0])) == 0.0 && Money(TaxSum(lines[..0])) == 0.0
  {
  }

  function DocumentTaxable(inv: Invoice): real {
    RoundTo2(Money(NetSum(inv.lines)) - inv.discount)
  }

  function DocumentTax(inv: Invoice): real {
    RoundTo2(Money(TaxSum(inv.lines)) - inv.DiscountTax())
  }

  method TaxableAmount(inv: Invoice) returns (r: real)
    ensures r == DocumentTaxable(inv)
  {
    hide NetSum, RoundTo2, Line.NetAmount;
    var total := -inv.discount;
    NoSums(inv.lines);
    for i := 0 to |inv.lines|
      invariant total == Money(NetSum(inv.lines[..i])) - inv.discount
    {
      SumsGrow(inv.lines, i);
      total := total + inv.lines[i].NetAmount();
    }
    assert inv.lines[..|inv.lines|] == inv.lines;
    r := RoundTo2(total);
  }

  method TotalTax(inv: Invoice) returns (r: real)
    ensures r == DocumentTax(inv)
  {
    hide TaxSum, RoundTo2, Line.TaxAmount, Money;
    var total := 0.0;
    NoSums(inv.lines);
    for i := 0 to |inv.lines|
      invariant total == Money(TaxSum(inv.lines[..i]))
    {
      SumsGrow(inv.lines, i);
      total := total + inv.lines[i].TaxAmount();
    }
    assert inv.lines[..|inv.lines|] == inv.lines;
    if inv.discount > 0.0 && inv.discountPercent > 0.0 {
      total := total - RoundTo2(inv.discount * inv.discountPercent / 100.0);
    }
    r := RoundTo2(total);
  }

  method TotalWithTax(inv: Invoice) returns (r: real)
    ensures r == RoundTo2(DocumentTaxable(inv) + DocumentTax(inv))
  {
    var taxable := TaxableAmount(inv);
    var tax := TotalTax(inv);
    r := RoundTo2(taxable + tax);
  }

  datatype Totals = Totals(lineExtension: real, taxExclusive: real, taxInclusive: real, payable: real)

  function PrintedTotals(inv: Invoice): Totals {
    var lineExt := RoundTo2(Money(NetSum(inv.lines)));
    var taxExcl := RoundTo2(lineExt - inv.discount);
    var taxIncl := RoundTo2(taxExcl + DocumentTax(inv));
    Totals(lineExt, taxExcl, taxIncl, taxIncl)
  }

  /** writeLegalMonetaryTotal: the amounts it prints. */
  method LegalMonetaryTotal(inv: Invoice) returns (t: Totals)
    ensures t == PrintedTotals(inv)
  {
    hide NetSum, RoundTo2, Line.NetAmount, Money;
    var lineExt := 0.0;
    NoSums(inv.lines);
    for i := 0 to |inv.lines|
      invariant lineExt == Money(NetSum(inv.lines[..i]))
    {
      SumsGrow(inv.lines, i);
      lineExt := lineExt + inv.lines[i].NetAmount();
    }
    assert inv.lines[..|inv.lines|] == inv.lines;
    lineExt := RoundTo2(lineExt);
    var taxExcl := RoundTo2(lineExt - inv.discount);
    var tax := TotalTax(inv);
    var taxIncl := RoundTo2(taxExcl + tax);
    t := Totals(lineExt, taxExcl, taxIncl, taxIncl);
  }

  // ---------------------------------------------------------------- groups

  /** The hundredths that two decimal places print: the nearest whole number, halves to even. */
  function Hundredths(v: real): nat
    requires v >= 0.0
  {
    var f := (v * 100.0).Floor;
    var rest := v * 100.0 - f as real;
    if rest < 0.5 || (rest == 0.5 && f % 2 == 0) then f else f + 1
  }

  function TwoPlaces(n: nat): string {
    DecimalNat(n / 100) + "." + [Digit(n / 10 % 10), Digit(n % 10)]
  }

  function Abs(v: real): real {
    if v < 0.0 then -v else v
  }

  /** fmt.Sprintf("%.2f", p): a percent below zero keeps its sign, also when it prints as -0.00. */
  function PrintedPercent(p: real): string {
    if p < 0.0 then "-" + TwoPlaces(Hundredths(-p)) else TwoPlaces(Hundredths(p))
  }

  /** The key of a group is a text. */
  datatype Key = Key(text: string)

  function KeyOf(l: Line): Key {
    Key(l.category + "-" + PrintedPercent(l.percent))
  }

  /** What stands before the last dash of a key: the category and the sign. */
  function Stem(l: Line): string {
    l.category + if l.percent < 0.0 then "-" else ""
  }

  lemma TwoPlacesHoldNoDash(n: nat)
    ensures '-' !in TwoPlaces(n)
  {
    hide DecimalNat;
    var (front, end) := (DecimalNat(n / 100), "." + [Digit(n / 10 % 10), Digit(n % 10)]);
    assert TwoPlaces(n) == front + end;
  }

  lemma TwoPlacesTell(m: nat, n: nat)
    requires TwoPlaces(m) == TwoPlaces(n)
    ensures m == n
  {
    hide DecimalNat, ParseNat;
    var (s, t) := (TwoPlaces(m), TwoPlaces(n));
    assert s[..|s| - 3] == DecimalNat(m / 100) && t[..|t| - 3] == DecimalNat(n / 100);
    assert s[|s| - 2] == Digit(m / 10 % 10) && s[|s| - 1] == Digit(m % 10);
    assert t[|t| - 2] == Digit(n / 10 % 10) && t[|t| - 1] == Digit(n % 10);
    ParseInvertsDecimalNat(m / 100);
    ParseInvertsDecimalNat(n / 100);
    LastDigits(m, n);
  }

  /** The printed hundredth is the nearest one, and the even one of two. */
  lemma HundredthsAreNearest(v: real)
    requires v >= 0.0
    ensures var off := v * 100.0 - Hundredths(v) as real;
      -0.5 <= off <= 0.5 && (off == 0.5 || off == -0.5 ==> Hundredths(v) % 2 == 0)
  {
  }

  /** A percent is printed with a sign when it is below zero, its digits, a dot and two more digits, and all of its
      digits are its hundredths. */
  lemma PercentIsPrinted(p: real) returns (whole: string, places: string)
    ensures PrintedPercent(p) == (if p < 0.0 then "-" else "") + whole + "." + places && |places| == 2
    ensures forall i | 0 <= i < |whole + places| :: '0' <= (whole + places)[i] <= '9'
    ensures ParseNat(whole + places) == Hundredths(Abs(p))
  {
    hide Hundredths, DecimalNat, ParseNat;
    var n := Hundredths(Abs(p));
    whole, places := DecimalNat(n / 100), [Digit(n / 10 % 10), Digit(n % 10)];
    assert TwoPlaces(n) == whole + "." + places;
    DigitsParse(whole, n / 10 % 10, n % 10);
    ParseInvertsDecimalNat(n / 100);
    DigitsOf(n);
  }

  lemma DigitsParse(front: string, tens: nat, ones: nat)
    requires tens < 10 && ones < 10 && forall i | 0 <= i < |front| :: '0' <= front[i] <= '9'
    ensures var s := front + [Digit(tens), Digit(ones)];
      (forall i | 0 <= i < |s| :: '0' <= s[i] <= '9') && ParseNat(s) == ParseNat(front) * 100 + tens * 10 + ones
  {
    var s := front + [Digit(tens), Digit(ones)];
    assert s[..|s| - 1] == front + [Digit(tens)] && (front + [Digit(tens)])[..|front|] == front;
  }

  lemma LastDigits(m: nat, n: nat)
    requires m / 100 == n / 100 && m / 10 % 10 == n / 10 % 10 && m % 10 == n % 10
    ensures m == n
  {
    DigitsOf(m);
    DigitsOf(n);
  }

  lemma DigitsOf(n: nat)
    ensures n == n / 100 * 100 + n / 10 % 10 * 10 + n % 10
  {
    var q := n / 10;
    assert n == q * 10 + n % 10 && q == q / 10 * 10 + q % 10 && q / 10 == n / 100;
  }

  /** Two lines share a group exactly when their stems and their printed hundredths are the same: a line of category S
      at a percent below zero joins one of category S- at the opposite percent, and one that prints as -0.00 joins none
      at 0.00. */
  lemma SameKey(a: Line, b: Line)
    ensures KeyOf(a) == KeyOf(b) <==>
      Stem(a) == Stem(b) && Hundredths(Abs(a.percent)) == Hundredths(Abs(b.percent))
  {
    hide TwoPlaces, Hundredths;
    var (m, n) := (Hundredths(Abs(a.percent)), Hundredths(Abs(b.percent)));
    KeyEnds(a);
    KeyEnds(b);
    TwoPlacesHoldNoDash(m);
    TwoPlacesHoldNoDash(n);
    hide KeyOf, Stem;
    if KeyOf(a) == KeyOf(b) {
      SplitsAtLast(Stem(a), TwoPlaces(m), Stem(b), TwoPlaces(n), '-');
      TwoPlacesTell(m, n);
    }
  }

  lemma KeyEnds(l: Line)
    ensures KeyOf(l).text == Stem(l) + ['-'] + TwoPlaces(Hundredths(Abs(l.percent)))
  {
    hide TwoPlaces, Hundredths;
  }

  datatype Group = Group(category: string, percent: real, taxable: real, tax: real)

  /** The keys in the order of their first lines. */
  function Keys(lines: seq<Line>): seq<Key> {
    if lines == [] then []
    else
      var keys, k := Keys(lines[..|lines| - 1]), KeyOf(lines[|lines| - 1]);
      if k in keys then keys else keys + [k]
  }

  lemma {:induction false} KeysAreDistinct(lines: seq<Line>)
    ensures forall i, j | 0 <= i < j < |Keys(lines)| :: Keys(lines)[i] != Keys(lines)[j]
  {
    if lines != [] {
      KeysAreDistinct(lines[..|lines| - 1]);
    }
  }

  lemma {:induction false} LineHasItsKey(lines: seq<Line>, i: nat)
    requires i < |lines|
    ensures KeyOf(lines[i]) in Keys(lines)
  {
    if i < |lines| - 1 {
      LineHasItsKey(lines[..|lines| - 1], i);
    }
  }

  function NetFor(lines: seq<Line>, k: Key): int {
    if lines == [] then 0
    else NetFor(lines[..|lines| - 1], k) + (if KeyOf(lines[|lines| - 1]) == k then lines[|lines| - 1].NetCents() else 0)
  }

  function TaxFor(lines: seq<Line>, k: Key): int {
    if lines == [] then 0
    else TaxFor(lines[..|lines| - 1], k) + (if KeyOf(lines[|lines| - 1]) == k then lines[|lines| - 1].TaxCents() else 0)
  }

  function CountFor(lines: seq<Line>, k: Key): nat {
    if lines == [] then 0
    else CountFor(lines[..|lines| - 1], k) + (if KeyOf(lines[|lines| - 1]) == k then 1 else 0)
  }

  /** The first line of a group gives it its category and percent. */
  function FirstFor(lines: seq<Line>, k: Key): Line
    requires k in Keys(lines)
  {
    var front := lines[..|lines| - 1];
    if k in Keys(front) then FirstFor(front, k) else lines[|lines| - 1]
  }

  function Collected(lines: seq<Line>, k: Key): Group
    requires k in Keys(lines)
  {
    var first := FirstFor(lines, k);
    Group(first.category, first.percent, Money(NetFor(lines, k)), Money(TaxFor(lines, k)))
  }

  function Rounded(g: Group): Group {
    g.(taxable := RoundTo2(g.taxable), tax := RoundTo2(g.tax))
  }

  lemma {:induction false} NothingForOthers(lines: seq<Line>, k: Key)
    requires k !in Keys(lines)
    ensures NetFor(lines, k) == 0 && TaxFor(lines, k) == 0 && CountFor(lines, k) == 0
  {
    if lines != [] {
      assert KeyOf(lines[|lines| - 1]) != k;
      assert k !in Keys(lines[..|lines| - 1]);
      NothingForOthers(lines[..|lines| - 1], k);
    }
  }

  function GroupsOf(lines: seq<Line>, keys: seq<Key>): seq<Group>
    requires forall i | 0 <= i < |keys| :: keys[i] in Keys(lines)
  {
    seq(|keys|, i requires 0 <= i < |keys| => Rounded(Collected(lines, keys[i])))
  }

  function Groups(lines: seq<Line>): seq<Group> {
    GroupsOf(lines, Keys(lines))
  }

  /** taxGroups: one group for each key, in the order of the first lines, with the rounded sums of its lines. */
  method TaxGroups(lines: seq<Line>) returns (result: seq<Group>)
    ensures result == Groups(lines)
  {
    hide GroupsOf, Groups, RoundTo2, Money, Collects, Keys, Collected, Line.NetAmount, Line.TaxAmount, KeyOf, Rounded;
    var m: map<Key, Group> := map[];
    var keys: seq<Key> := [];
    NothingCollected(lines);
    for n := 0 to |lines|
      invariant Collects(m, keys, lines[..n])
    {
      var l := lines[n];
      var key := KeyOf(l);
      CollectsNext(m, keys, lines, n);
      ghost var before := m;
      if key !in m {
        m := m[key := Group(l.category, l.percent, 0.0, 0.0)];
        keys := keys + [key];
      }
      var g := m[key];
      var more := g.(taxable := g.taxable + l.NetAmount(), tax := g.tax + l.TaxAmount());
      WrittenTwice(before, key, g, more);
      m := m[key := more];
    }
    assert lines[..|lines|] == lines;
    CollectsAll(m, keys, lines);
    result := RoundGroups(m, keys);
    RoundedAreGroups(m, keys, lines, result);
  }

  lemma WrittenTwice(m: map<Key, Group>, key: Key, a: Group, b: Group)
    ensures m[key := a][key := b] == m[key := b]
  {
  }

  /** The last loop of taxGroups. */
  method RoundGroups(m: map<Key, Group>, keys: seq<Key>) returns (result: seq<Group>)
    requires forall k | k in keys :: k in m
    ensures |result| == |keys| && forall i | 0 <= i < |keys| :: result[i] == Rounded(m[keys[i]])
  {
    hide RoundTo2;
    result := [];
    for n := 0 to |keys|
      invariant |result| == n && forall i | 0 <= i < n :: result[i] == Rounded(m[keys[i]])
    {
      var g := m[keys[n]];
      g := g.(taxable := RoundTo2(g.taxable), tax := RoundTo2(g.tax));
      result := result + [g];
    }
  }

  lemma RoundedAreGroups(m: map<Key, Group>, keys: seq<Key>, lines: seq<Line>, groups: seq<Group>)
    requires keys == Keys(lines) && forall k | k in keys :: k in m && m[k] == Collected(lines, k)
    requires |groups| == |keys| && forall i | 0 <= i < |keys| :: groups[i] == Rounded(m[keys[i]])
    ensures groups == Groups(lines)
  {
    hide Keys, Collected, Rounded;
    forall i | 0 <= i < |keys|
      ensures groups[i] == GroupsOf(lines, keys)[i]
    {
      assert keys[i] in keys;
    }
  }

  /** The map and the key list of taxGroups after some lines. */
  ghost predicate Collects(m: map<Key, Group>, keys: seq<Key>, lines: seq<Line>) {
    keys == Keys(lines) && (forall k :: k in m <==> k in keys) && forall k | k in keys :: m[k] == Collected(lines, k)
  }

  lemma NothingCollected(lines: seq<Line>)
    ensures Collects(map[], [], lines[..0])
  {
    hide Collected;
  }

  lemma CollectsAll(m: map<Key, Group>, keys: seq<Key>, lines: seq<Line>)
    requires Collects(m, keys, lines)
    ensures keys == Keys(lines) && forall k | k in keys :: k in m && m[k] == Collected(lines, k)
  {
  }

  lemma CollectsNext(m: map<Key, Group>, keys: seq<Key>, lines: seq<Line>, n: nat)
    requires n < |lines| && Collects(m, keys, lines[..n])
    ensures var (l, key) := (lines[n], KeyOf(lines[n]));
      var g := if key in m then m[key] else Group(l.category, l.percent, 0.0, 0.0);
      Collects(m[key := g.(taxable := g.taxable + l.NetAmount(), tax := g.tax + l.TaxAmount())],
               if key in m then keys else keys + [key], lines[..n + 1])
  {
    hide Keys, Collected, Line.NetAmount, Line.TaxAmount, KeyOf;
    LineAdded(lines, n);
  }

  lemma ForGrows(lines: seq<Line>, n: nat, k: Key)
    requires n < |lines|
    ensures var (before, after, l) := (lines[..n], lines[..n + 1], lines[n]);
      && Money(NetFor(after, k)) == Money(NetFor(before, k)) + (if KeyOf(l) == k then l.NetAmount() else 0.0)
      && Money(TaxFor(after, k)) == Money(TaxFor(before, k)) + (if KeyOf(l) == k then l.TaxAmount() else 0.0)
  {
    InCents(lines[n]);
    assert lines[..n + 1][..n] == lines[..n];
    hide Line.NetAmount, Line.TaxAmount, Line.NetCents, Line.TaxCents, KeyOf;
    MoneyAdds(NetFor(lines[..n], k), lines[n].NetCents());
    MoneyAdds(TaxFor(lines[..n], k), lines[n].TaxCents());
  }

  lemma LineAdded(lines: seq<Line>, n: nat)
    requires n < |lines|
    ensures var (before, after, l) := (lines[..n], lines[..n + 1], lines[n]);
      && Keys(after) == (if KeyOf(l) in Keys(before) then Keys(before) else Keys(before) + [KeyOf(l)])
      && (forall k | k in Keys(before) && k != KeyOf(l) :: Collected(after, k) == Collected(before, k))
      && (KeyOf(l) in Keys(before) ==>
            var g := Collected(before, KeyOf(l));
            Collected(after, KeyOf(l)) == g.(taxable := g.taxable + l.NetAmount(), tax := g.tax + l.TaxAmount()))
      && (KeyOf(l) !in Keys(before) ==>
            Collected(after, KeyOf(l)) == Group(l.category, l.percent, 0.0 + l.NetAmount(), 0.0 + l.TaxAmount()))
  {
    assert lines[..n + 1][..n] == lines[..n];
    hide NetFor, TaxFor, Money, Line.NetAmount, Line.TaxAmount;
    forall k | k in Keys(lines[..n]) && k != KeyOf(lines[n])
      ensures Collected(lines[..n + 1], k) == Collected(lines[..n], k)
    {
      ForGrows(lines, n, k);
    }
    ForGrows(lines, n, KeyOf(lines[n]));
    if KeyOf(lines[n]) !in Keys(lines[..n]) {
      NothingForOthers(lines[..n], KeyOf(lines[n]));
      NoMoney();
    }
  }

  lemma NoMoney()
    ensures Money(0) == 0.0
  {
  }

  // ---------------------------------------------------------------- lines of a bill

  datatype Product = Product(name: Option<string>, productID: Option<int>,
                             quantity: Option<real>, price: Option<real>, vat: Option<real>)
  {
    function Name(): string {
      if name.Some? && name.value != "" then name.value
      else if productID.Some? then "product-" + Decimal(productID.value) else "product"
    }

    function Quantity(): real {
      if quantity.Some? then quantity.value else 1.0
    }

    function Price(): real {
      if price.Some? then price.value else 0.0
    }

    function Vat(): real {
      if vat.Some? then vat.value else 15.0
    }
  }

  /** A line as it is printed, with its amounts. */
  datatype LineItem = LineItem(id: string, name: string, unitCode: string, line: Line)

  /** The items of a bill: numbered from one, in pieces, with the defaults for missing columns. */
  function ItemsOf(products: seq<Product>): (items: seq<LineItem>)
    ensures |items| == |products|
    ensures forall i | 0 <= i < |products| ::
      items[i] == LineItem(Decimal(i + 1), products[i].Name(), "PCE", LinesOf(products)[i])
  {
    seq(|products|, i requires 0 <= i < |products| =>
      LineItem(Decimal(i + 1), products[i].Name(), "PCE", LinesOf(products)[i]))
  }

  method BuildLines(products: seq<Product>) returns (items: seq<LineItem>)
    ensures items == ItemsOf(products)
    ensures |items| == |products|
    ensures forall i | 0 <= i < |products| ::
      items[i] == LineItem(Decimal(i + 1), products[i].Name(), "PCE", LinesOf(products)[i])
  {
    hide Decimal;
    items := [];
    for i := 0 to |products|
      invariant |items| == i
      invariant forall j | 0 <= j < i ::
        items[j] == LineItem(Decimal(j + 1), products[j].Name(), "PCE", LinesOf(products)[j])
    {
      var p := products[i];
      var lineName := "product";
      if p.name.Some? && p.name.value != "" {
        lineName := p.name.value;
      } else if p.productID.Some? {
        lineName := "product-" + Decimal(p.productID.value);
      }
      var line := Line(p.Quantity(), p.Price(), 0.0, "S", p.Vat());
      items := items + [LineItem(Decimal(i + 1), lineName, "PCE", line)];
    }
  }

  function LinesOf(products: seq<Product>): (lines: seq<Line>)
    ensures |lines| == |products|
    ensures forall i | 0 <= i < |products| ::
      lines[i] == Line(products[i].Quantity(), products[i].Price(), 0.0, "S", products[i].Vat())
  {
    if products == [] then []
    else
      var p := products[|products| - 1];
      LinesOf(products[..|products| - 1]) + [Line(p.Quantity(), p.Price(), 0.0, "S", p.Vat())]
  }

  /** The line checks of verifyBill. */
  method VerifyLines(products: seq<Product>) returns (ok: bool)
    ensures ok <==> Verified(products)
  {
    if |products| == 0 { return false; }
    for i := 0 to |products|
      invariant forall j | 0 <= j < i :: products[j].Quantity() > 0.0 && products[j].Price() >= 0.0
    {
      if products[i].Quantity() <= 0.0 { return false; }
      if products[i].Price() < 0.0 { return false; }
    }
    return true;
  }

  predicate Verified(products: seq<Product>) {
    products != [] && forall i | 0 <= i < |products| :: products[i].Quantity() > 0.0 && products[i].Price() >= 0.0
  }

  /** The invoice of a bill has no document discount. */
  function BillInvoice(products: seq<Product>): Invoice {
    Invoice(LinesOf(products), 0.0, 0.0)
  }

  // ---------------------------------------------------------------- sums of lines

  predicate Positive(l: Line) {
    l.quantity > 0.0 && l.unitPrice >= 0.0 && l.discount == 0.0
  }

  lemma NetIsNotNegative(l: Line)
    requires Positive(l)
    ensures l.NetCents() >= 0
  {
    var (q, p) := (l.quantity, l.unitPrice);
    assert q * p >= 0.0;
    RoundsToNearest(q * p);
  }

  lemma TaxIsNotNegative(l: Line)
    requires l.NetCents() >= 0 && l.percent >= 0.0
    ensures l.TaxCents() >= 0
  {
    var (n, p) := (l.NetAmount(), l.percent);
    assert n >= 0.0;
    assert n * p >= 0.0;
    RoundsToNearest(n * p / 100.0);
  }

  lemma {:induction false} NetsAreNotNegative(lines: seq<Line>, k: Key)
    requires forall i | 0 <= i < |lines| :: lines[i].NetCents() >= 0
    ensures NetSum(lines) >= 0 && NetFor(lines, k) >= 0
  {
    hide Line.NetCents;
    if lines != [] { NetsAreNotNegative(lines[..|lines| - 1], k); }
  }

  lemma NetSumIsNotNegative(lines: seq<Line>)
    requires forall i | 0 <= i < |lines| :: lines[i].NetCents() >= 0
    ensures NetSum(lines) >= 0
  {
    hide Line.NetCents;
    NetsAreNotNegative(lines, Key(""));
  }

  lemma {:induction false} TaxesAreNotNegative(lines: seq<Line>, k: Key)
    requires forall i | 0 <= i < |lines| :: lines[i].TaxCents() >= 0
    ensures TaxSum(lines) >= 0 && TaxFor(lines, k) >= 0
  {
    hide Line.TaxCents;
    if lines != [] { TaxesAreNotNegative(lines[..|lines| - 1], k); }
  }

  /** How many lines have a gross amount below zero. */
  function NegativeGross(lines: seq<Line>): nat {
    if lines == [] then 0
    else
      var l := lines[|lines| - 1];
      NegativeGross(lines[..|lines| - 1]) + (if l.NetCents() + l.TaxCents() < 0 then 1 else 0)
  }

  /** The gross amounts of the lines add up, with one hundredth more for each one below zero. */
  lemma {:induction false} GrossAddsUp(lines: seq<Line>)
    ensures GrossSum(lines) == Money(NetSum(lines) + TaxSum(lines) + NegativeGross(lines))
  {
    hide Line.NetCents, Line.TaxCents, Line.NetAmount, Line.TaxAmount, RoundedCents;
    if lines != [] {
      var front, l := lines[..|lines| - 1], lines[|lines| - 1];
      GrossAddsUp(front);
      InCents(l);
      var gross := l.NetCents() + l.TaxCents();
      MoneyAdds(l.NetCents(), l.TaxCents());
      RoundsMoney(gross);
      MoneyAdds(NetSum(front) + TaxSum(front) + NegativeGross(front), if gross < 0 then gross + 1 else gross);
    }
  }

  lemma {:induction false} NoneNegative(lines: seq<Line>)
    requires forall i | 0 <= i < |lines| :: lines[i].NetCents() >= 0 && lines[i].TaxCents() >= 0
    ensures NegativeGross(lines) == 0
  {
    hide Line.NetCents, Line.TaxCents;
    if lines != [] { NoneNegative(lines[..|lines| - 1]); }
  }

  // ---------------------------------------------------------------- sums of groups

  function TaxableTotal(groups: seq<Group>): real {
    if groups == [] then 0.0 else TaxableTotal(groups[..|groups| - 1]) + groups[|groups| - 1].taxable
  }

  function TaxTotal(groups: seq<Group>): real {
    if groups == [] then 0.0 else TaxTotal(groups[..|groups| - 1]) + groups[|groups| - 1].tax
  }

  function NetOver(lines: seq<Line>, keys: seq<Key>): int {
    if keys == [] then 0 else NetOver(lines, keys[..|keys| - 1]) + NetFor(lines, keys[|keys| - 1])
  }

  function TaxOver(lines: seq<Line>, keys: seq<Key>): int {
    if keys == [] then 0 else TaxOver(lines, keys[..|keys| - 1]) + TaxFor(lines, keys[|keys| - 1])
  }

  predicate Distinct(keys: seq<Key>) {
    forall i, j | 0 <= i < j < |keys| :: keys[i] != keys[j]
  }

  /** Over distinct keys, a line counts once or not at all. */
  lemma {:induction false} OneMoreLine(lines: seq<Line>, keys: seq<Key>)
    requires lines != [] && Distinct(keys)
    ensures var (front, l) := (lines[..|lines| - 1], lines[|lines| - 1]);
      && NetOver(lines, keys) == NetOver(front, keys) + (if KeyOf(l) in keys then l.NetCents() else 0)
      && TaxOver(lines, keys) == TaxOver(front, keys) + (if KeyOf(l) in keys then l.TaxCents() else 0)
  {
    hide Line.NetCents, Line.TaxCents, KeyOf;
    if keys != [] {
      OneMoreLine(lines, keys[..|keys| - 1]);
    }
  }

  lemma {:induction false} NothingOver(keys: seq<Key>)
    ensures NetOver([], keys) == 0 && TaxOver([], keys) == 0
  {
    if keys != [] { NothingOver(keys[..|keys| - 1]); }
  }

  /** Distinct keys that cover every line lose and repeat nothing. */
  lemma {:induction false} OverAllKeys(lines: seq<Line>, keys: seq<Key>)
    requires Distinct(keys) && forall i | 0 <= i < |lines| :: KeyOf(lines[i]) in keys
    ensures NetOver(lines, keys) == NetSum(lines) && TaxOver(lines, keys) == TaxSum(lines)
  {
    hide Line.NetCents, Line.TaxCents, KeyOf;
    if lines == [] {
      NothingOver(keys);
    } else {
      OneMoreLine(lines, keys);
      OverAllKeys(lines[..|lines| - 1], keys);
    }
  }

  /** How many of the keys have a tax below zero. */
  function NegativeTax(lines: seq<Line>, keys: seq<Key>): nat {
    if keys == [] then 0
    else NegativeTax(lines, keys[..|keys| - 1]) + (if TaxFor(lines, keys[|keys| - 1]) < 0 then 1 else 0)
  }

  lemma OneMoreGroup(lines: seq<Line>, keys: seq<Key>)
    requires keys != [] && forall k | k in keys :: k in Keys(lines)
    ensures var (all, front, k) := (GroupsOf(lines, keys), GroupsOf(lines, keys[..|keys| - 1]), keys[|keys| - 1]);
      && TaxableTotal(all) == TaxableTotal(front) + RoundTo2(Money(NetFor(lines, k)))
      && TaxTotal(all) == TaxTotal(front) + RoundTo2(Money(TaxFor(lines, k)))
  {
    hide NetFor, TaxFor, Keys, FirstFor, RoundTo2, Money;
    var all := GroupsOf(lines, keys);
    assert all[..|all| - 1] == GroupsOf(lines, keys[..|keys| - 1]);
  }

  lemma {:induction false} GroupTotals(lines: seq<Line>, keys: seq<Key>)
    requires forall k | k in keys :: k in Keys(lines) && NetFor(lines, k) >= 0
    ensures TaxableTotal(GroupsOf(lines, keys)) == Money(NetOver(lines, keys))
    ensures TaxTotal(GroupsOf(lines, keys)) == Money(TaxOver(lines, keys) + NegativeTax(lines, keys))
  {
    hide NetFor, TaxFor, Keys, GroupsOf, RoundedCents;
    if keys == [] {
      NoGroups(lines);
      NoMoney();
    } else {
      hide TaxableTotal, TaxTotal, Money;
      var front, k := keys[..|keys| - 1], keys[|keys| - 1];
      GroupTotals(lines, front);
      OneMoreGroup(lines, keys);
      var tax := TaxFor(lines, k);
      RoundsMoney(NetFor(lines, k));
      RoundsMoney(tax);
      MoneyAdds(NetOver(lines, front), NetFor(lines, k));
      MoneyAdds(TaxOver(lines, front) + NegativeTax(lines, front), if tax < 0 then tax + 1 else tax);
    }
  }

  lemma NoGroups(lines: seq<Line>)
    ensures TaxableTotal(GroupsOf(lines, [])) == 0.0 && TaxTotal(GroupsOf(lines, [])) == 0.0
  {
  }

  // ---------------------------------------------------------------- results

  /** The hundredth that rounding adds to a sum below zero. */
  function Slip(cents: int): nat {
    if cents < 0 then 1 else 0
  }

  /** The exact limit: verifyBill lets any percent through. For every verified bill the taxable sum of the groups is the
      taxable amount and the printed exclusive amount, and the total with tax is the printed inclusive amount; the tax
      sum of the groups is the document tax if and only if as many groups have a tax below zero as rounding the sum of
      all taxes slips; the inclusive amount is the exclusive one and the tax if and only if their sum is not below zero;
      and the gross amounts of the lines add up to the payable amount if and only if as many lines have a gross amount
      below zero as rounding the two totals slips. */
  lemma LinesAddUp(lines: seq<Line>)
    requires forall i | 0 <= i < |lines| :: Positive(lines[i])
    ensures var inv := Invoice(lines, 0.0, 0.0);
      var (t, groups, n, x) := (PrintedTotals(inv), Groups(lines), NetSum(lines), TaxSum(lines));
      var total := n + x + Slip(x);
      && TaxableTotal(groups) == DocumentTaxable(inv) == t.taxExclusive == t.lineExtension
      && RoundTo2(DocumentTaxable(inv) + DocumentTax(inv)) == t.taxInclusive == t.payable
      && (TaxTotal(groups) == DocumentTax(inv) <==> NegativeTax(lines, Keys(lines)) == Slip(x))
      && (t.taxInclusive == t.taxExclusive + DocumentTax(inv) <==> total >= 0)
      && (GrossSum(lines) == t.payable <==> NegativeGross(lines) == Slip(x) + Slip(total))
  {
    hide Positive, Line.NetCents, Line.TaxCents, Groups, TaxableTotal, TaxTotal, GrossSum, PrintedTotals, NetSum,
      TaxSum, RoundTo2, DocumentTax, DocumentTaxable, NegativeTax, NegativeGross, Keys, Slip, Money;
    NetsOfPositive(lines);
    NetSumIsNotNegative(lines);
    PrintedInCents(lines);
    GroupsAddUp(lines);
    GrossAddsUp(lines);
    SlipsDecide(NetSum(lines), TaxSum(lines), NegativeTax(lines, Keys(lines)), NegativeGross(lines));
  }

  lemma NetsOfPositive(lines: seq<Line>)
    requires forall i | 0 <= i < |lines| :: Positive(lines[i])
    ensures forall i | 0 <= i < |lines| :: lines[i].NetCents() >= 0
  {
    hide Positive, Line.NetCents;
    forall i | 0 <= i < |lines|
      ensures lines[i].NetCents() >= 0
    {
      NetIsNotNegative(lines[i]);
    }
  }

  lemma SlipsDecide(n: int, x: int, keys: nat, gross: nat)
    ensures var total := n + x + Slip(x);
      && (Money(x + keys) == Money(x + Slip(x)) <==> keys == Slip(x))
      && (Money(total + Slip(total)) == Money(n) + Money(x + Slip(x)) <==> total >= 0)
      && (Money(n + x + gross) == Money(total + Slip(total)) <==> gross == Slip(x) + Slip(total))
  {
    var total := n + x + Slip(x);
    MoneyAdds(n, x + Slip(x));
    MoneyAdds(x + keys, x + Slip(x));
    MoneyAdds(total + Slip(total), total);
    MoneyAdds(n + x + gross, total + Slip(total));
  }

  /** The printed amounts of an invoice without a discount, in hundredths. */
  lemma PrintedInCents(lines: seq<Line>)
    requires NetSum(lines) >= 0
    ensures var inv := Invoice(lines, 0.0, 0.0);
      var (t, n, x) := (PrintedTotals(inv), NetSum(lines), TaxSum(lines));
      var total := n + x + Slip(x);
      && DocumentTaxable(inv) == t.taxExclusive == t.lineExtension == Money(n)
      && DocumentTax(inv) == Money(x + Slip(x))
      && RoundTo2(DocumentTaxable(inv) + DocumentTax(inv)) == t.taxInclusive == t.payable == Money(total + Slip(total))
  {
    hide NetSum, TaxSum, RoundedCents;
    var (n, x) := (NetSum(lines), TaxSum(lines));
    RoundsMoney(n);
    RoundsMoney(x);
    MoneyAdds(n, x + Slip(x));
    RoundsMoney(n + x + Slip(x));
    MoneyAdds(n, 0);
    MoneyAdds(x, 0);
    NoMoney();
    hide Money;
  }

  lemma GroupsAddUp(lines: seq<Line>)
    requires forall i | 0 <= i < |lines| :: lines[i].NetCents() >= 0
    ensures TaxableTotal(Groups(lines)) == Money(NetSum(lines))
    ensures TaxTotal(Groups(lines)) == Money(TaxSum(lines) + NegativeTax(lines, Keys(lines)))
  {
    hide Line.NetCents, NetFor, NetOver, TaxOver, NetSum, TaxSum, NegativeTax, Keys, GroupsOf, KeyOf, TaxableTotal,
      TaxTotal, Money;
    var keys := Keys(lines);
    NetsOfKeys(lines, keys);
    KeysAreDistinct(lines);
    AllKeyed(lines);
    OverAllKeys(lines, keys);
    GroupTotals(lines, keys);
  }

  lemma NetsOfKeys(lines: seq<Line>, keys: seq<Key>)
    requires forall i | 0 <= i < |lines| :: lines[i].NetCents() >= 0
    ensures forall k | k in keys :: NetFor(lines, k) >= 0
  {
    hide Line.NetCents, NetFor;
    forall k | k in keys
      ensures NetFor(lines, k) >= 0
    {
      NetsAreNotNegative(lines, k);
    }
  }

  lemma AllKeyed(lines: seq<Line>)
    ensures forall i | 0 <= i < |lines| :: KeyOf(lines[i]) in Keys(lines)
  {
    hide Keys, KeyOf;
    forall i | 0 <= i < |lines|
      ensures KeyOf(lines[i]) in Keys(lines)
    {
      LineHasItsKey(lines, i);
    }
  }

  lemma {:induction false} NoKeyNegative(lines: seq<Line>, keys: seq<Key>)
    requires forall i | 0 <= i < |lines| :: lines[i].TaxCents() >= 0
    ensures NegativeTax(lines, keys) == 0
  {
    hide Line.TaxCents;
    if keys != [] {
      NoKeyNegative(lines, keys[..|keys| - 1]);
      TaxesAreNotNegative(lines, keys[|keys| - 1]);
    }
  }

  predicate NotNegative(lines: seq<Line>) {
    forall i | 0 <= i < |lines| :: Positive(lines[i]) && lines[i].NetCents() >= 0 && lines[i].TaxCents() >= 0
  }

  lemma BillLines(products: seq<Product>)
    requires Verified(products) && forall i | 0 <= i < |products| :: products[i].Vat() >= 0.0
    ensures NotNegative(LinesOf(products))
  {
    hide Line.NetCents, Line.TaxCents;
    var lines := LinesOf(products);
    forall i | 0 <= i < |lines|
      ensures Positive(lines[i]) && lines[i].NetCents() >= 0 && lines[i].TaxCents() >= 0
    {
      NetIsNotNegative(lines[i]);
      TaxIsNotNegative(lines[i]);
    }
  }

  /** Main result: for a verified bill without negative percents, the group sums are the document totals, the taxable
      amount and the total with tax are the printed exclusive and inclusive amounts, the inclusive amount is the
      exclusive one and the tax, and the gross amounts of the lines add up to the payable amount. */
  lemma TotalsAgree(products: seq<Product>)
    requires Verified(products) && forall i | 0 <= i < |products| :: products[i].Vat() >= 0.0
    ensures var inv := BillInvoice(products);
      var (t, groups) := (PrintedTotals(inv), Groups(inv.lines));
      && TaxableTotal(groups) == DocumentTaxable(inv) == t.taxExclusive == t.lineExtension
      && TaxTotal(groups) == DocumentTax(inv)
      && RoundTo2(DocumentTaxable(inv) + DocumentTax(inv)) == t.taxInclusive == t.payable
      && t.taxInclusive == t.taxExclusive + DocumentTax(inv)
      && GrossSum(inv.lines) == t.payable
  {
    hide PrintedTotals, DocumentTax, DocumentTaxable, GrossSum, Groups, TaxableTotal, TaxTotal, RoundTo2, NotNegative,
      LinesOf;
    BillLines(products);
    TotalsOfLines(LinesOf(products));
  }

  lemma TotalsOfLines(lines: seq<Line>)
    requires NotNegative(lines)
    ensures var inv := Invoice(lines, 0.0, 0.0);
      var (t, groups) := (PrintedTotals(inv), Groups(lines));
      && TaxableTotal(groups) == DocumentTaxable(inv) == t.taxExclusive == t.lineExtension
      && TaxTotal(groups) == DocumentTax(inv)
      && RoundTo2(DocumentTaxable(inv) + DocumentTax(inv)) == t.taxInclusive == t.payable
      && t.taxInclusive == t.taxExclusive + DocumentTax(inv)
      && GrossSum(lines) == t.payable
  {
    hide Line.NetCents, Line.TaxCents, Positive, Groups, PrintedTotals, DocumentTax, DocumentTaxable, GrossSum,
      TaxableTotal, TaxTotal, RoundTo2, NetSum, TaxSum, NegativeTax, NegativeGross, Keys;
    LinesAddUp(lines);
    NoKeyNegative(lines, Keys(lines));
    NoneNegative(lines);
    NetsAreNotNegative(lines, Key(""));
    TaxesAreNotNegative(lines, Key(""));
  }

  /** Where the group taxes miss the document tax: 100.00 at 15 % and 100.00 at -5 %, although the taxes sum to
      10.01. */
  lemma TwoRatesMiss(products: seq<Product>)
    requires products == [Product(None, None, Some(1.0), Some(100.0), Some(15.0)),
                           Product(None, None, Some(1.0), Some(100.0), Some(-5.0))]
    ensures var inv := BillInvoice(products);
      Verified(products) && DocumentTax(inv) == 10.01 && TaxTotal(Groups(inv.lines)) == 10.02
  {
    var lines := LinesOf(products);
    AtRate(lines[0], 1500);
    AtRate(lines[1], -499);
    TwoGroups(lines[0], lines[1]);
    hide Line.TaxCents, Line.NetCents, RoundedCents, Groups;
    assert lines == [lines[0], lines[1]];
    RoundsMoney(1001);
  }

  /** Another such bill: 1000.00 at 0.004 % and 1000.00 at -0.004 %, printed as 0.00 and -0.00 percent. */
  lemma RatesAroundZeroMiss(products: seq<Product>)
    requires products == [Product(None, None, Some(1.0), Some(1000.0), Some(0.004)),
                           Product(None, None, Some(1.0), Some(1000.0), Some(-0.004))]
    ensures var inv := BillInvoice(products);
      && Verified(products) && |Groups(inv.lines)| == 2
      && DocumentTax(inv) == 0.01 && TaxTotal(Groups(inv.lines)) == 0.02
  {
    var lines := LinesOf(products);
    AtRate(lines[0], 4);
    AtRate(lines[1], -3);
    TwoGroups(lines[0], lines[1]);
    hide Line.TaxCents, Line.NetCents, RoundedCents, Groups;
    assert lines == [lines[0], lines[1]];
    RoundsMoney(1);
  }

  /** Two lines of category S, one with a tax and one with a tax below zero. */
  lemma TwoGroups(a: Line, b: Line)
    requires a.category == b.category == "S" && a.percent >= 0.0 > b.percent
    requires a.NetCents() >= 0 && b.NetCents() >= 0 && a.TaxCents() >= 0 > b.TaxCents()
    ensures |Groups([a, b])| == 2 && TaxSum([a, b]) == a.TaxCents() + b.TaxCents()
    ensures TaxTotal(Groups([a, b])) == Money(a.TaxCents() + b.TaxCents() + 1)
  {
    var (k, m, lines) := (KeyOf(a), KeyOf(b), [a, b]);
    SameKey(a, b);
    assert |Stem(a)| == 1 && |Stem(b)| == 2;
    hide Line.TaxCents, Line.NetCents, KeyOf, Stem, Hundredths;
    OfTwo(a, b, k);
    OfTwo(a, b, m);
    OneOfTwo(lines, k, m);
    GroupsAddUp(lines);
  }

  lemma OneOfTwo(lines: seq<Line>, k: Key, m: Key)
    requires TaxFor(lines, k) >= 0 && TaxFor(lines, m) < 0
    ensures NegativeTax(lines, [k, m]) == 1
  {
    hide TaxFor;
    var two, one := [k, m], [k];
    assert two[..|two| - 1] == one && one[..|one| - 1] == [];
    assert NegativeTax(lines, one) == 0;
  }

  lemma OfTwo(a: Line, b: Line, k: Key)
    ensures TaxFor([a, b], k) == (if KeyOf(a) == k then a.TaxCents() else 0)
         + (if KeyOf(b) == k then b.TaxCents() else 0)
    ensures TaxSum([a, b]) == a.TaxCents() + b.TaxCents()
    ensures Keys([a, b]) == if KeyOf(a) == KeyOf(b) then [KeyOf(a)] else [KeyOf(a), KeyOf(b)]
  {
    hide Line.TaxCents, KeyOf;
    var two, one := [a, b], [a];
    assert two[..|two| - 1] == one && one[..|one| - 1] == [];
    assert TaxFor(one, k) == (if KeyOf(a) == k then a.TaxCents() else 0) && TaxSum(one) == a.TaxCents();
    assert Keys(one) == [KeyOf(a)];
  }

  lemma AtRate(l: Line, tax: int)
    requires l.quantity == 1.0 && l.discount == 0.0
    requires
      || (l.unitPrice == 100.0 && l.percent == 15.0 && tax == 1500)
      || (l.unitPrice == 100.0 && l.percent == -5.0 && tax == -499)
      || (l.unitPrice == 100.0 && l.percent == -15.0 && tax == -1499)
      || (l.unitPrice == 1000.0 && l.percent == 0.004 && tax == 4)
      || (l.unitPrice == 1000.0 && l.percent == -0.004 && tax == -3)
    ensures l.NetCents() == (if l.unitPrice == 100.0 then 10000 else 100000) && l.TaxCents() == tax
  {
    assert l.Net() == l.unitPrice && l.NetAmount() == l.unitPrice;
    assert l.Tax() == l.unitPrice * l.percent / 100.0;
  }

  lemma OfOne(a: Line)
    ensures NetSum([a]) == a.NetCents() && TaxSum([a]) == a.TaxCents()
    ensures NegativeGross([a]) == if a.NetCents() + a.TaxCents() < 0 then 1 else 0
  {
    hide Line.NetCents, Line.TaxCents;
    var one := [a];
    assert one[..|one| - 1] == [];
  }

  /** Where the lines miss the payable amount: one line of 100.00 at -15 %. */
  lemma NegativeRateMisses(products: seq<Product>)
    requires products == [Product(None, None, Some(1.0), Some(100.0), Some(-15.0))]
    ensures var inv := BillInvoice(products);
      Verified(products) && GrossSum(inv.lines) == 85.01 && PrintedTotals(inv).payable == 85.02
  {
    var lines := LinesOf(products);
    var a := lines[0];
    assert Verified(products);
    AtRate(a, -1499);
    hide Line.TaxCents, Line.NetCents, RoundedCents;
    OfOne(a);
    assert lines == [a];
    GrossAddsUp(lines);
    RoundsMoney(10000);
    RoundsMoney(-1499);
    RoundsMoney(8502);
  }

  /** A percent in whole hundredths. */
  predicate Whole(p: real) {
    p * 100.0 == (p * 100.0).Floor as real
  }

  /** The tax is within half a hundredth for each line of the net amount's percentage. */
  predicate Near(tax: real, net: real, percent: real, count: nat) {
    var off := tax - net * percent / 100.0;
    -0.005 * count as real <= off <= 0.005 * count as real
  }

  lemma NearAdds(a: real, b: real, m: real, n: real, percent: real, count: nat)
    requires Near(a, m, percent, count) && Near(b, n, percent, 1)
    ensures Near(a + b, m + n, percent, count + 1)
  {
    Distributes(m, n, percent);
  }

  lemma SamePercent(l: Line, first: Line)
    requires l.percent >= 0.0 && first.percent >= 0.0 && Whole(l.percent) && Whole(first.percent)
    requires KeyOf(l) == KeyOf(first)
    ensures l.percent == first.percent
  {
    SameKey(l, first);
    hide KeyOf, Stem;
  }

  lemma {:induction false} NearFor(lines: seq<Line>, k: Key, first: Line)
    requires forall i | 0 <= i < |lines| ::
      lines[i].NetCents() >= 0 && lines[i].percent >= 0.0 && Whole(lines[i].percent)
    requires first.percent >= 0.0 && Whole(first.percent) && k == KeyOf(first)
    ensures Near(Money(TaxFor(lines, k)), Money(NetFor(lines, k)), first.percent, CountFor(lines, k))
  {
    hide Line.NetCents, Line.TaxCents, Line.NetAmount, Line.TaxAmount, Money, KeyOf, Whole;
    if lines == [] {
      NoMoney();
    } else {
      var front, l := lines[..|lines| - 1], lines[|lines| - 1];
      NearFor(front, k, first);
      if KeyOf(l) == k {
        SamePercent(l, first);
        OneLineNear(l);
        InCents(l);
        hide Near;
        MoneyAdds(NetFor(front, k), l.NetCents());
        MoneyAdds(TaxFor(front, k), l.TaxCents());
        NearAdds(Money(TaxFor(front, k)), l.TaxAmount(), Money(NetFor(front, k)), l.NetAmount(), l.percent,
                 CountFor(front, k));
      }
    }
  }

  lemma OneLineNear(l: Line)
    requires l.NetCents() >= 0 && l.percent >= 0.0
    ensures Near(l.TaxAmount(), l.NetAmount(), l.percent, 1)
  {
    var (n, p) := (l.NetAmount(), l.percent);
    assert n >= 0.0;
    assert n * p >= 0.0;
    RoundsToNearest(n * p / 100.0);
  }

  lemma Distributes(a: real, b: real, p: real)
    ensures (a + b) * p / 100.0 == a * p / 100.0 + b * p / 100.0
  {
  }

  lemma {:induction false} FirstIsALine(lines: seq<Line>, k: Key) returns (i: nat)
    requires k in Keys(lines)
    ensures i < |lines| && KeyOf(lines[i]) == k && FirstFor(lines, k) == lines[i]
  {
    var front := lines[..|lines| - 1];
    i := |lines| - 1;
    if k in Keys(front) { i := FirstIsALine(front, k); }
  }

  /** Main result: when every percent is a whole number of hundredths, the tax of a group is within half a hundredth for
      each of its lines of the percentage of its taxable amount. */
  lemma GroupTaxIsNear(lines: seq<Line>, g: nat)
    requires forall i | 0 <= i < |lines| :: Positive(lines[i]) && lines[i].percent >= 0.0 && Whole(lines[i].percent)
    requires g < |Groups(lines)|
    ensures var group := Groups(lines)[g];
      Near(group.tax, group.taxable, group.percent, CountFor(lines, Keys(lines)[g]))
  {
    hide KeyOf, Whole, Near, RoundedCents, Line.NetCents, Line.TaxCents;
    var k := Keys(lines)[g];
    forall i | 0 <= i < |lines|
      ensures lines[i].NetCents() >= 0 && lines[i].TaxCents() >= 0
    {
      NetIsNotNegative(lines[i]);
      TaxIsNotNegative(lines[i]);
    }
    var i := FirstIsALine(lines, k);
    NearFor(lines, k, lines[i]);
    NetsAreNotNegative(lines, k);
    TaxesAreNotNegative(lines, k);
    RoundsMoney(NetFor(lines, k));
    RoundsMoney(TaxFor(lines, k));
  }

  // ---------------------------------------------------------------- a document discount

  lemma DiscountInCents(inv: Invoice)
    ensures inv.DiscountTax() == Money(inv.DiscountCents())
  {
    hide RoundedCents, Money, Invoice.DiscountShare;
    NoMoney();
  }

  /** taxGroups never subtracts the document discount. With one, the taxable sum of the groups is the taxable amount if
      and only if the discount is at most half a hundredth, or there is nothing to tax and it is less than one and a
      half; and the tax sum is the document tax if and only if the groups with a tax below zero and the tax of the
      discount together make up for what rounding the difference slips. */
  lemma GroupsIgnoreTheDiscount(inv: Invoice)
    requires inv.discount > 0.0 && forall i | 0 <= i < |inv.lines| :: inv.lines[i].NetCents() >= 0
    ensures var (groups, n, x, d) := (Groups(inv.lines), NetSum(inv.lines), TaxSum(inv.lines), inv.DiscountCents());
      && (TaxableTotal(groups) == DocumentTaxable(inv)
          <==> inv.discount <= 0.005 || (n == 0 && inv.discount < 0.015))
      && (TaxTotal(groups) == DocumentTax(inv)
          <==> NegativeTax(inv.lines, Keys(inv.lines)) + d == Slip(x - d))
  {
    hide Line.NetCents, Line.TaxCents, Groups, TaxableTotal, TaxTotal, NetSum, TaxSum, NegativeTax, Keys, RoundedCents,
      Money;
    var (lines, n, x, d) := (inv.lines, NetSum(inv.lines), TaxSum(inv.lines), inv.DiscountCents());
    NetSumIsNotNegative(lines);
    GroupsAddUp(lines);
    DiscountedCents(n, inv.discount);
    MoneyAdds(n, RoundedCents(Money(n) - inv.discount));
    DiscountInCents(inv);
    hide Invoice.DiscountTax;
    var groups := x + NegativeTax(lines, Keys(lines));
    MoneyAdds(x, d);
    RoundsMoney(x - d);
    MoneyAdds(groups, RoundedCents(Money(x - d)));
  }

  lemma DiscountedCents(n: int, discount: real)
    requires n >= 0 && discount > 0.0
    ensures RoundedCents(Money(n) - discount) == n <==> discount <= 0.005 || (n == 0 && discount < 0.015)
  {
    var v := (Money(n) - discount) * 100.0 + 0.5;
    assert v == n as real - discount * 100.0 + 0.5;
    if v >= 0.0 {
      assert v.Floor == n <==> n as real <= v < n as real + 1.0;
    } else {
      assert (-v).Floor == 0 <==> -v < 1.0;
    }
  }
}
