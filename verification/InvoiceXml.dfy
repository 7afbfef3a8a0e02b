/** The sections of an invoice that ToXML writes around the QR reference (invoice/xml.go). Numbers, dates and codes are
    texts. */
module InvoiceXml {
  import opened Text
  import opened Markup
  import opened Signing
  import opened Digest
  import Amounts

  // ---------------------------------------------------------------- sections

  /** A value on a line of its own, or sections between two tags, indented by one step more. */
  datatype Section = Leaf(name: string, attrs: string, value: string)
    | Group(name: string, step: string, sections: seq<Section>)

  /** A section at an indentation, with the text after it. */
  function Laid(s: Section, indent: string, tail: string): Element
    decreases s, 0
  {
    match s
    case Leaf(name, attrs, value) => Element(name, attrs, value, [], tail)
    case Group(name, step, sections) =>
      Element(name, "", "\n" + indent + step, LaidAll(sections, indent + step, "\n" + indent), tail)
  }

  /** Sections below each other, with the text after the last one. */
  function LaidAll(ss: seq<Section>, indent: string, end: string): seq<Element>
    decreases ss, 1
  {
    if ss == [] then []
    else [Laid(ss[0], indent, if |ss| == 1 then end else "\n" + indent)] + LaidAll(ss[1..], indent, end)
  }

  /** A section whose names are names of fewer characters than the limit, and whose texts hold no markup. */
  ghost predicate Fits(s: Section, limit: nat) {
    && IsName(s.name) && |s.name| < limit
    && match s
       case Leaf(_, attrs, value) => IsAttrs(attrs) && NoMarkup(value)
       case Group(_, step, sections) => NoMarkup(step) && forall i | 0 <= i < |sections| :: Fits(sections[i], limit)
  }

  ghost predicate AllFit(ss: seq<Section>, limit: nat) {
    forall i | 0 <= i < |ss| :: Fits(ss[i], limit)
  }

  /** An id QR without attributes. */
  ghost predicate HoldsQr(s: Section) {
    match s
    case Leaf(name, attrs, value) => name == CBC_ID && attrs == "" && value == "QR"
    case Group(_, _, sections) => exists i :: 0 <= i < |sections| && HoldsQr(sections[i])
  }

  ghost predicate SomeHoldQr(ss: seq<Section>) {
    exists i :: 0 <= i < |ss| && HoldsQr(ss[i])
  }

  // ---------------------------------------------------------------- what the sections are as elements

  predicate NamesBelow(ps: seq<Piece>, limit: nat) {
    forall i | 0 <= i < |ps| :: |ps[i].mark.name| < limit
  }

  const QR_PIECE := Piece(Open(CBC_ID, ""), "QR")

  /** The start of an id QR is followed by its end. */
  predicate QrCloses(ps: seq<Piece>) {
    forall i | 0 <= i < |ps| && ps[i] == QR_PIECE :: i + 1 < |ps| && ps[i + 1].mark == Close(CBC_ID)
  }

  lemma LaidStep(ss: seq<Section>, indent: string, end: string)
    requires ss != []
    ensures var (e, rest) := (Laid(ss[0], indent, if |ss| == 1 then end else "\n" + indent),
                              LaidAll(ss[1..], indent, end));
      LaidAll(ss, indent, end) == [e] + rest && FlattenAll(LaidAll(ss, indent, end)) == Flatten(e) + FlattenAll(rest)
  {
    var (e, rest) := (Laid(ss[0], indent, if |ss| == 1 then end else "\n" + indent), LaidAll(ss[1..], indent, end));
    hide Laid, Flatten, FlattenAll;
    FlattenSplits([e], rest);
    FlattenOne(e);
  }

  lemma NoPiecesLaid(indent: string, end: string)
    ensures LaidAll([], indent, end) == [] && FlattenAll([]) == []
  {
  }

  /** Sections that fit are clean trees with names below the limit. */
  lemma {:induction false} LaidIsClean(ss: seq<Section>, limit: nat, indent: string, end: string)
    requires AllFit(ss, limit) && NoMarkup(indent) && NoMarkup(end)
    ensures var es := LaidAll(ss, indent, end); CleanTrees(es) && NamesBelow(FlattenAll(es), limit)
    decreases ss, 1
  {
    hide Laid, LaidAll, Flatten, FlattenAll, Fits, CleanPiece, Proper;
    if ss == [] {
      NoPiecesLaid(indent, end);
      ProperNone();
    } else {
      var tail := if |ss| == 1 then end else "\n" + indent;
      var (e, rest) := (Laid(ss[0], indent, tail), LaidAll(ss[1..], indent, end));
      LaidStep(ss, indent, end);
      SectionIsClean(ss[0], limit, indent, tail);
      LaidIsClean(ss[1..], limit, indent, end);
      FlattenOne(e);
      CleanJoins(Flatten(e), FlattenAll(rest));
      ProperJoins([e], rest);
    }
  }

  lemma {:induction false} SectionIsClean(s: Section, limit: nat, indent: string, tail: string)
    requires Fits(s, limit) && NoMarkup(indent) && NoMarkup(tail)
    ensures var e := Laid(s, indent, tail); CleanTrees([e]) && NamesBelow(Flatten(e), limit)
    decreases s, 0
  {
    hide LaidAll, Flatten, FlattenAll, Proper, IsName, IsAttrs;
    var e := Laid(s, indent, tail);
    FlattenOne(e);
    ProperNone();
    match s {
      case Leaf(name, attrs, value) =>
        FlattenLeaf(name, attrs, value, tail);
        ProperOne(e);
      case Group(name, step, sections) =>
        assert AllFit(sections, limit);
        LaidIsClean(sections, limit, indent + step, "\n" + indent);
        ProperOne(e);
        FlattenNode(e);
        IdIsName();
        var (o, c) := (Piece(Open(name, ""), e.text), Piece(Close(name), tail));
        assert CleanPiece(o) && CleanPiece(c);
        hide CleanPiece, NoMarkup;
        CleanJoins([o], FlattenAll(e.children));
        CleanJoins([o] + FlattenAll(e.children), [c]);
    }
  }

  lemma QrClosesJoined(a: seq<Piece>, b: seq<Piece>)
    requires QrCloses(a) && QrCloses(b)
    ensures QrCloses(a + b)
  {
    var ps := a + b;
    forall i | 0 <= i < |ps| && ps[i] == QR_PIECE
      ensures i + 1 < |ps| && ps[i + 1].mark == Close(CBC_ID)
    {
      if i < |a| {
        assert a[i] == QR_PIECE && ps[i + 1] == a[i + 1];
      } else {
        assert b[i - |a|] == QR_PIECE && ps[i + 1] == b[i + 1 - |a|];
      }
    }
  }

  /** An id QR among the pieces is one among the sections. */
  lemma {:induction false} QrPieces(ss: seq<Section>, indent: string, end: string)
    ensures var ps := FlattenAll(LaidAll(ss, indent, end)); QrCloses(ps) && (QR_PIECE in ps <==> SomeHoldQr(ss))
    decreases ss, 1
  {
    hide Laid, LaidAll, Flatten, FlattenAll, HoldsQr, QrCloses;
    if ss == [] {
      NoPiecesLaid(indent, end);
      NoPieceCloses();
    } else {
      var tail := if |ss| == 1 then end else "\n" + indent;
      LaidStep(ss, indent, end);
      QrPiecesOf(ss[0], indent, tail);
      QrPieces(ss[1..], indent, end);
      QrClosesJoined(Flatten(Laid(ss[0], indent, tail)), FlattenAll(LaidAll(ss[1..], indent, end)));
      FirstOrRest(ss);
    }
  }

  lemma NoPieceCloses()
    ensures QrCloses([])
  {
  }

  lemma FirstOrRest(ss: seq<Section>)
    requires ss != []
    ensures SomeHoldQr(ss) <==> HoldsQr(ss[0]) || SomeHoldQr(ss[1..])
  {
    hide HoldsQr;
    if SomeHoldQr(ss) {
      var i :| 0 <= i < |ss| && HoldsQr(ss[i]);
      if i > 0 { assert HoldsQr(ss[1..][i - 1]); }
    }
    if SomeHoldQr(ss[1..]) {
      var i :| 0 <= i < |ss[1..]| && HoldsQr(ss[1..][i]);
      assert HoldsQr(ss[i + 1]);
    }
  }

  lemma {:induction false} QrPiecesOf(s: Section, indent: string, tail: string)
    ensures var ps := Flatten(Laid(s, indent, tail)); QrCloses(ps) && (QR_PIECE in ps <==> HoldsQr(s))
    decreases s, 0
  {
    hide LaidAll, Flatten, FlattenAll;
    var e := Laid(s, indent, tail);
    match s {
      case Leaf(name, attrs, value) =>
        FlattenLeaf(name, attrs, value, tail);
      case Group(name, step, sections) =>
        QrPieces(sections, indent + step, "\n" + indent);
        FlattenNode(e);
        var (o, c) := (Piece(Open(name, ""), e.text), Piece(Close(name), tail));
        assert o.text[0] == '\n' && "QR"[0] == 'Q';
        assert QrCloses([o]) && QrCloses([c]);
        assert HoldsQr(s) <==> SomeHoldQr(sections);
        hide QrCloses, HoldsQr;
        QrClosesJoined([o], FlattenAll(e.children));
        QrClosesJoined([o] + FlattenAll(e.children), [c]);
    }
  }

  lemma QrIdOfSections(ss: seq<Section>, indent: string, end: string)
    ensures HasQrId(FlattenAll(LaidAll(ss, indent, end))) <==> SomeHoldQr(ss)
  {
    QrPieces(ss, indent, end);
    hide LaidAll, FlattenAll, SomeHoldQr;
    var ps := FlattenAll(LaidAll(ss, indent, end));
    if QR_PIECE in ps {
      var i :| 0 <= i < |ps| && ps[i] == QR_PIECE;
      assert LeafAt(ps, i, CBC_ID, "", "QR");
    }
  }

  // ---------------------------------------------------------------- invoices

  datatype Party = Party(id: string, schemeID: string, vat: string, name: string, nameAR: string, street: string,
                         building: string, district: string, city: string, postalCode: string, country: string)

  datatype TextLine = TextLine(id: string, unitCode: string, quantity: string, net: string, tax: string, gross: string,
                               name: string, category: string, percent: string, price: string, discount: Option<string>)

  datatype TextGroup = TextGroup(category: string, percent: string, taxable: string, tax: string)

  datatype Allowance = Allowance(amount: string, category: string, percent: string)

  datatype Invoice = Invoice(
    profileID: string, id: string, uuid: string, date: string, time: string, subType: string, typeCode: string,
    note: string, noteLang: string, documentCurrency: string, taxCurrency: string, billingReference: string,
    counter: string, previousHash: string, standard: bool, supplier: Party, customer: Party, delivery: Option<string>,
    paymentMeans: string, instructionNote: string, discount: Option<Allowance>, totalTax: string,
    groups: seq<TextGroup>,
    lineExtension: string, taxExclusive: string, taxInclusive: string, allowanceTotal: string, lines: seq<TextLine>)
  {
    /** validate */
    predicate Validates() {
      && id != "" && uuid != "" && lines != [] && supplier.vat != "" && (standard ==> customer.vat != "")
      && previousHash != ""
    }

    function Currency(): string {
      OrDefault(documentCurrency, "SAR")
    }

    /** The fields that are written as they are hold no markup, and in attributes no quotation mark. */
    predicate RawClean() {
      && InAttribute(subType) && InAttribute(documentCurrency)
      && NoMarkup(typeCode) && NoMarkup(previousHash) && NoMarkup(totalTax)
      && NoMarkup(lineExtension) && NoMarkup(taxExclusive) && NoMarkup(taxInclusive) && NoMarkup(allowanceTotal)
      && (discount.Some? ==>
            NoMarkup(discount.value.amount) && NoMarkup(discount.value.category) && NoMarkup(discount.value.percent))
      && (forall i | 0 <= i < |groups| :: GroupClean(groups[i]))
      && (forall i | 0 <= i < |lines| :: LineClean(lines[i]))
    }

    /** A line is numbered or coded QR. */
    predicate HasQrLine() {
      exists i :: 0 <= i < |lines| && IsQrLine(lines[i])
    }
  }

  predicate InAttribute(s: string) {
    NoMarkup(s) && '"' !in s
  }

  predicate GroupClean(g: TextGroup) {
    NoMarkup(g.category) && NoMarkup(g.percent) && NoMarkup(g.taxable) && NoMarkup(g.tax)
  }

  predicate LineClean(l: TextLine) {
    && InAttribute(l.unitCode) && NoMarkup(l.quantity) && NoMarkup(l.net) && NoMarkup(l.tax) && NoMarkup(l.gross)
    && NoMarkup(l.percent) && NoMarkup(l.price) && (l.discount.Some? ==> NoMarkup(l.discount.value))
  }

  predicate IsQrLine(l: TextLine) {
    l.id == "QR" || l.category == "QR"
  }

  function OrDefault(s: string, other: string): string {
    if s == "" then other else s
  }

  const STEP := "    "

  /** writeElement and writeElementIndent */
  function El(name: string, value: string): Section {
    Leaf(name, "", Escape(value))
  }

  function Optional(there: bool, s: Section): seq<Section> {
    if there then [s] else []
  }

  function Money(name: string, currency: string, amount: string): Section {
    Leaf(name, Attribute("currencyID", currency), amount)
  }

  function HeaderOf(inv: Invoice): seq<Section> {
    [El("cbc:ProfileID", OrDefault(inv.profileID, "reporting:1.0")), El(CBC_ID, inv.id), El("cbc:UUID", inv.uuid),
     El("cbc:IssueDate", inv.date), El("cbc:IssueTime", inv.time),
     Leaf("cbc:InvoiceTypeCode", Attribute("name", inv.subType), inv.typeCode)]
    + Optional(inv.note != "", NoteOf(inv))
    + [El("cbc:DocumentCurrencyCode", inv.Currency()), El("cbc:TaxCurrencyCode", OrDefault(inv.taxCurrency, "SAR"))]
    + Optional(inv.billingReference != "", BillingOf(inv))
  }

  function NoteOf(inv: Invoice): Section {
    Leaf("cbc:Note", Attribute("languageID", Escape(OrDefault(inv.noteLang, "ar"))), Escape(inv.note))
  }

  function BillingOf(inv: Invoice): Section {
    Group("cac:BillingReference", STEP,
          [Group("cac:InvoiceDocumentReference", STEP, [El(CBC_ID, inv.billingReference)])])
  }

  /** writeAdditionalDocRefs up to the QR reference */
  function CounterOf(inv: Invoice): Section {
    Group(REFERENCE, STEP, [El(CBC_ID, "ICV"), El("cbc:UUID", inv.counter)])
  }

  function PreviousOf(inv: Invoice): Section {
    Group(REFERENCE, STEP, [El(CBC_ID, "PIH"), Group(ATTACHMENT, STEP, [Leaf(BINARY, PLAIN, inv.previousHash)])])
  }

  function SignatureOf(fixed: Fixed): Section {
    Group("cac:Signature", "  ", [El(CBC_ID, fixed.reference), El("cbc:SignatureMethod", fixed.uri)])
  }

  function RegistrationName(p: Party): string {
    if p.nameAR != "" then p.nameAR + " | " + p.name else p.name
  }

  /** writeAddress */
  function AddressOf(p: Party): Section {
    Group("cac:PostalAddress", STEP,
          [El("cbc:StreetName", p.street)] + Optional(p.building != "", El("cbc:BuildingNumber", p.building))
          + Optional(p.district != "", El("cbc:CitySubdivisionName", p.district))
          + [El("cbc:CityName", p.city), El("cbc:PostalZone", p.postalCode),
             Group("cac:Country", STEP, [El("cbc:IdentificationCode", OrDefault(p.country, "SA"))])])
  }

  function Vat(): Section {
    Group("cac:TaxScheme", STEP, [El(CBC_ID, "VAT")])
  }

  function TaxSchemeOf(p: Party): Section {
    Group("cac:PartyTaxScheme", STEP, [El("cbc:CompanyID", p.vat), Vat()])
  }

  function EntityOf(p: Party): Section {
    Group("cac:PartyLegalEntity", STEP, [El("cbc:RegistrationName", RegistrationName(p))])
  }

  function IdentificationOf(p: Party): Section {
    Group("cac:PartyIdentification", STEP,
          [Leaf(CBC_ID, Attribute("schemeID", Escape(OrDefault(p.schemeID, "CRN"))), Escape(p.id))])
  }

  function SupplierOf(p: Party): Section {
    Group("cac:AccountingSupplierParty", STEP,
          [Group("cac:Party", STEP,
                 Optional(p.id != "", IdentificationOf(p)) + [AddressOf(p), TaxSchemeOf(p), EntityOf(p)])])
  }

  function CustomerOf(p: Party): Section {
    Group("cac:AccountingCustomerParty", STEP,
          [Group("cac:Party", STEP,
                 [AddressOf(p)] + Optional(p.vat != "", TaxSchemeOf(p)) + Optional(p.name != "", EntityOf(p)))])
  }

  function DeliveryOf(inv: Invoice): Section {
    var date := if inv.delivery.Some? then inv.delivery.value else inv.date;
    Group("cac:Delivery", STEP, [El("cbc:ActualDeliveryDate", date)])
  }

  function PaymentOf(inv: Invoice): Section {
    Group("cac:PaymentMeans", STEP,
          [El("cbc:PaymentMeansCode", OrDefault(inv.paymentMeans, "10"))]
          + Optional(inv.instructionNote != "", El("cbc:InstructionNote", inv.instructionNote)))
  }

  const CATEGORY_SCHEME := Attribute("schemeID", "UN/ECE 5305") + Attribute("schemeAgencyID", "6")
  const TAX_SCHEME := Attribute("schemeID", "UN/ECE 5153") + Attribute("schemeAgencyID", "6")

  function CategoryOf(category: string, percent: string): Section {
    Group("cac:TaxCategory", STEP,
          [Leaf(CBC_ID, CATEGORY_SCHEME, category), Leaf("cbc:Percent", "", percent),
           Group("cac:TaxScheme", STEP, [Leaf(CBC_ID, TAX_SCHEME, "VAT")])])
  }

  function Reasons(currency: string, amount: string): seq<Section> {
    [El("cbc:ChargeIndicator", "false"), El("cbc:AllowanceChargeReason", "discount"),
     Money("cbc:Amount", currency, amount)]
  }

  /** writeAllowanceCharge */
  function AllowanceOf(currency: string, a: Allowance): Section {
    Group("cac:AllowanceCharge", STEP,
          Reasons(currency, a.amount) + [CategoryOf(OrDefault(a.category, "S"), a.percent)])
  }

  function SubtotalOf(currency: string, g: TextGroup): Section {
    Group("cac:TaxSubtotal", STEP,
          [Money("cbc:TaxableAmount", currency, g.taxable), Money("cbc:TaxAmount", currency, g.tax),
           CategoryOf(g.category, g.percent)])
  }

  /** writeTaxTotals */
  function TaxTotalsOf(inv: Invoice): seq<Section> {
    var total := Money("cbc:TaxAmount", inv.Currency(), inv.totalTax);
    [Group("cac:TaxTotal", STEP, [total]),
     Group("cac:TaxTotal", STEP,
           [total] + seq(|inv.groups|, i requires 0 <= i < |inv.groups| => SubtotalOf(inv.Currency(), inv.groups[i])))]
  }

  /** writeLegalMonetaryTotal */
  function MonetaryOf(inv: Invoice): Section {
    var cur := inv.Currency();
    Group("cac:LegalMonetaryTotal", STEP, [
      Money("cbc:LineExtensionAmount", cur, inv.lineExtension),
      Money("cbc:TaxExclusiveAmount", cur, inv.taxExclusive),
      Money("cbc:TaxInclusiveAmount", cur, inv.taxInclusive),
      Money("cbc:AllowanceTotalAmount", cur, inv.allowanceTotal),
      Money("cbc:PrepaidAmount", cur, "0.00"),
      Money("cbc:PayableAmount", cur, inv.taxInclusive)
    ])
  }

  function LineTax(currency: string, l: TextLine): Section {
    Group("cac:TaxTotal", STEP, [
      Money("cbc:TaxAmount", currency, l.tax),
      Money("cbc:RoundingAmount", currency, l.gross)
    ])
  }

  function LineCategory(l: TextLine): Section {
    Group("cac:ClassifiedTaxCategory", STEP, [El(CBC_ID, l.category), Leaf("cbc:Percent", "", l.percent), Vat()])
  }

  function LineItem(l: TextLine): Section {
    Group("cac:Item", STEP, [El("cbc:Name", l.name), LineCategory(l)])
  }

  function LinePrice(currency: string, l: TextLine): Section {
    Group("cac:Price", STEP,
          [Money("cbc:PriceAmount", currency, l.price)]
          + if l.discount.Some? then [Group("cac:AllowanceCharge", STEP, Reasons(currency, l.discount.value))] else [])
  }

  /** writeLine */
  function LineOf(currency: string, l: TextLine, number: nat): Section {
    Group("cac:InvoiceLine", STEP, [
      El(CBC_ID, OrDefault(l.id, DecimalNat(number))),
      Leaf("cbc:InvoicedQuantity", Attribute("unitCode", OrDefault(l.unitCode, "PCE")), l.quantity),
      Money("cbc:LineExtensionAmount", currency, l.net),
      LineTax(currency, l),
      LineItem(l),
      LinePrice(currency, l)
    ])
  }

  function LinesOf(inv: Invoice): seq<Section> {
    seq(|inv.lines|, i requires 0 <= i < |inv.lines| => LineOf(inv.Currency(), inv.lines[i], i + 1))
  }

  function PartiesOf(fixed: Fixed, inv: Invoice): seq<Section> {
    [SignatureOf(fixed), SupplierOf(inv.supplier), CustomerOf(inv.customer)]
    + Optional(inv.standard || inv.delivery.Some?, DeliveryOf(inv)) + [PaymentOf(inv)]
  }

  function TotalsOf(inv: Invoice): seq<Section> {
    (if inv.discount.Some? then [AllowanceOf(inv.Currency(), inv.discount.value)] else [])
    + TaxTotalsOf(inv) + [MonetaryOf(inv)]
  }

  function Before(inv: Invoice): seq<Element> {
    LaidAll(HeaderOf(inv) + [CounterOf(inv), PreviousOf(inv)], STEP, "\n    ")
  }

  function After(fixed: Fixed, inv: Invoice): seq<Element> {
    LaidAll(PartiesOf(fixed, inv) + TotalsOf(inv) + LinesOf(inv), STEP, "\n")
  }

  function ToXML(fixed: Fixed, inv: Invoice): Option<string> {
    if inv.Validates() then Some(Document(fixed, None, Before(inv), "", After(fixed, inv))) else None
  }

  // ---------------------------------------------------------------- what fits

  const SHORT := |BINARY|

  predicate IsShort(name: string) {
    IsName(name) && |name| < SHORT
  }

  lemma ValueFits(name: string, value: string)
    requires IsShort(name)
    ensures Fits(El(name, value), SHORT)
  {
    IdIsName();
    hide Escape;
  }

  lemma MoneyFits(name: string, currency: string, amount: string)
    requires IsShort(name) && InAttribute(currency) && NoMarkup(amount)
    ensures Fits(Money(name, currency, amount), SHORT) && !HoldsQr(Money(name, currency, amount))
  {
    AttributeFits("currencyID", currency);
    hide Attribute;
  }

  /** An attribute of one of the names in use. */
  lemma AttributeFits(name: string, value: string)
    requires name in ["currencyID", "name", "languageID", "schemeID", "schemeAgencyID", "unitCode"]
    requires InAttribute(value)
    ensures IsAttrs(Attribute(name, value)) && Attribute(name, value) != ""
  {
    assert Unquoted(name) && NoMarkup(name);
    hide IsAttrs;
    AttributeIsAttrs(name, value);
  }

  lemma GroupFits(name: string, step: string, sections: seq<Section>, limit: nat)
    requires IsName(name) && |name| < limit && NoMarkup(step) && AllFit(sections, limit)
    ensures Fits(Group(name, step, sections), limit)
  {
    hide IsName;
  }

  lemma FitsMore(s: Section, limit: nat, more: nat)
    requires Fits(s, limit) && limit <= more
    ensures Fits(s, more)
    decreases s
  {
    match s
    case Leaf(_, _, _) =>
    case Group(_, _, sections) =>
      forall i | 0 <= i < |sections|
        ensures Fits(sections[i], more)
      {
        FitsMore(sections[i], limit, more);
      }
  }

  /** Escaping leaves the text QR alone and makes no other text QR. */
  lemma EscapedQr(s: string)
    ensures Escape(s) == "QR" <==> s == "QR"
  {
    if s != "" {
      var t := s[1..];
      assert Escape(s) == EscapeChar(s[0]) + Escape(t);
      assert Escape(s)[0] == EscapeChar(s[0])[0];
      if EscapeChar(s[0]) == [s[0]] {
        assert Escape(s)[1..] == Escape(t);
        EscapedR(t);
        assert s == [s[0]] + t;
      }
    }
  }

  lemma EscapedR(t: string)
    ensures Escape(t) == "R" <==> t == "R"
  {
    if t != "" {
      assert Escape(t) == EscapeChar(t[0]) + Escape(t[1..]);
      assert Escape(t)[0] == EscapeChar(t[0])[0];
      if EscapeChar(t[0]) == [t[0]] {
        assert Escape(t)[1..] == Escape(t[1..]);
        EscapedNothing(t[1..]);
        assert t == [t[0]] + t[1..];
      }
    }
  }

  lemma EscapedNothing(t: string)
    ensures Escape(t) == "" <==> t == ""
  {
  }

  lemma ValueHoldsQr(name: string, value: string)
    ensures HoldsQr(El(name, value)) <==> name == CBC_ID && value == "QR"
  {
    EscapedQr(value);
    hide Escape;
  }

  // ---------------------------------------------------------------- the sections behind the QR reference

  /** A section without an id QR whose names are too short for a binary object. */
  ghost predicate Plain(s: Section) {
    Fits(s, SHORT) && !HoldsQr(s)
  }

  ghost predicate AllPlain(ss: seq<Section>) {
    forall i | 0 <= i < |ss| :: Plain(ss[i])
  }

  lemma PlainValue(name: string, value: string)
    requires IsShort(name) && (|name| == 6 ==> value != "QR")
    ensures Plain(El(name, value))
  {
    ValueFits(name, value);
    ValueHoldsQr(name, value);
    assert |CBC_ID| == 6;
    hide Fits, HoldsQr, El;
  }

  lemma PlainMoney(name: string, currency: string, amount: string)
    requires IsShort(name) && InAttribute(currency) && NoMarkup(amount)
    ensures Plain(Money(name, currency, amount))
  {
    MoneyFits(name, currency, amount);
    hide Fits, HoldsQr, Money;
  }

  lemma PlainLeaf(name: string, attrs: string, value: string)
    requires IsShort(name) && IsAttrs(attrs) && NoMarkup(value) && (|name| == 6 ==> attrs != "")
    ensures Plain(Leaf(name, attrs, value))
  {
    assert |CBC_ID| == 6;
    hide IsName, IsAttrs;
  }

  lemma PlainGroup(name: string, step: string, sections: seq<Section>)
    requires IsShort(name) && NoMarkup(step) && AllPlain(sections)
    ensures Plain(Group(name, step, sections))
  {
    GroupFits(name, step, sections, SHORT);
    hide IsName;
  }

  lemma StepIsText()
    ensures NoMarkup(STEP) && NoMarkup("  ")
  {
  }

  lemma PlainSignature(fixed: Fixed)
    requires fixed.Clean()
    ensures Plain(SignatureOf(fixed))
  {
    hide Plain, El, IsAttrs;
    StepIsText();
    PlainValue(CBC_ID, fixed.reference);
    PlainValue("cbc:SignatureMethod", fixed.uri);
    PlainGroup("cac:Signature", "  ", [El(CBC_ID, fixed.reference), El("cbc:SignatureMethod", fixed.uri)]);
  }

  lemma PlainAddress(p: Party)
    ensures Plain(AddressOf(p))
  {
    hide Plain, El;
    StepIsText();
    PlainValue("cbc:StreetName", p.street);
    PlainValue("cbc:BuildingNumber", p.building);
    PlainValue("cbc:CitySubdivisionName", p.district);
    PlainValue("cbc:CityName", p.city);
    PlainValue("cbc:PostalZone", p.postalCode);
    PlainValue("cbc:IdentificationCode", OrDefault(p.country, "SA"));
    PlainGroup("cac:Country", STEP, [El("cbc:IdentificationCode", OrDefault(p.country, "SA"))]);
    PlainGroup("cac:PostalAddress", STEP, AddressOf(p).sections);
  }

  lemma PlainVat()
    ensures Plain(Vat())
  {
    hide Plain, El;
    StepIsText();
    assert "VAT"[0] != "QR"[0];
    PlainValue(CBC_ID, "VAT");
    PlainGroup("cac:TaxScheme", STEP, [El(CBC_ID, "VAT")]);
  }

  lemma PlainTaxScheme(p: Party)
    ensures Plain(TaxSchemeOf(p))
  {
    hide Plain, El, Vat;
    StepIsText();
    PlainVat();
    PlainValue("cbc:CompanyID", p.vat);
    PlainGroup("cac:PartyTaxScheme", STEP, [El("cbc:CompanyID", p.vat), Vat()]);
  }

  lemma PlainEntity(p: Party)
    ensures Plain(EntityOf(p))
  {
    hide Plain, El, RegistrationName;
    StepIsText();
    PlainValue("cbc:RegistrationName", RegistrationName(p));
    PlainGroup("cac:PartyLegalEntity", STEP, [El("cbc:RegistrationName", RegistrationName(p))]);
  }

  lemma PlainIdentification(p: Party)
    ensures Plain(IdentificationOf(p))
  {
    hide Plain, Attribute, Escape, OrDefault, IsAttrs;
    var attrs := Attribute("schemeID", Escape(OrDefault(p.schemeID, "CRN")));
    AttributeFits("schemeID", Escape(OrDefault(p.schemeID, "CRN")));
    StepIsText();
    PlainLeaf(CBC_ID, attrs, Escape(p.id));
    PlainGroup("cac:PartyIdentification", STEP, [Leaf(CBC_ID, attrs, Escape(p.id))]);
  }

  lemma PlainSupplier(p: Party)
    ensures Plain(SupplierOf(p))
  {
    hide Plain, IdentificationOf, AddressOf, TaxSchemeOf, EntityOf;
    StepIsText();
    PlainIdentification(p);
    PlainAddress(p);
    PlainTaxScheme(p);
    PlainEntity(p);
    PlainGroup("cac:Party", STEP, SupplierOf(p).sections[0].sections);
    PlainGroup("cac:AccountingSupplierParty", STEP, SupplierOf(p).sections);
  }

  lemma PlainCustomer(p: Party)
    ensures Plain(CustomerOf(p))
  {
    hide Plain, AddressOf, TaxSchemeOf, EntityOf;
    StepIsText();
    PlainAddress(p);
    PlainTaxScheme(p);
    PlainEntity(p);
    PlainGroup("cac:Party", STEP, CustomerOf(p).sections[0].sections);
    PlainGroup("cac:AccountingCustomerParty", STEP, CustomerOf(p).sections);
  }

  lemma PlainPayment(inv: Invoice)
    ensures Plain(DeliveryOf(inv)) && Plain(PaymentOf(inv))
  {
    hide Plain, El, OrDefault;
    StepIsText();
    var date := if inv.delivery.Some? then inv.delivery.value else inv.date;
    PlainValue("cbc:ActualDeliveryDate", date);
    PlainGroup("cac:Delivery", STEP, [El("cbc:ActualDeliveryDate", date)]);
    PlainValue("cbc:PaymentMeansCode", OrDefault(inv.paymentMeans, "10"));
    PlainValue("cbc:InstructionNote", inv.instructionNote);
    PlainGroup("cac:PaymentMeans", STEP, PaymentOf(inv).sections);
  }

  lemma PlainParties(fixed: Fixed, inv: Invoice)
    requires fixed.Clean()
    ensures AllPlain(PartiesOf(fixed, inv))
  {
    hide Plain, SignatureOf, SupplierOf, CustomerOf, DeliveryOf, PaymentOf;
    PlainSignature(fixed);
    PlainSupplier(inv.supplier);
    PlainCustomer(inv.customer);
    PlainPayment(inv);
  }

  lemma AttrsJoin(a: string, b: string)
    requires IsAttrs(a) && IsAttrs(b) && b != ""
    ensures IsAttrs(a + b)
  {
    if a == "" {
      assert a + b == b;
    } else {
      QuotedGoesOn(a, b, ' ');
      hide Quoted;
      assert (a + b)[|a + b| - 1] == b[|b| - 1];
    }
  }

  lemma SchemesFit()
    ensures IsAttrs(CATEGORY_SCHEME) && CATEGORY_SCHEME != "" && IsAttrs(TAX_SCHEME) && TAX_SCHEME != ""
    ensures NoMarkup("VAT")
  {
    assert InAttribute("UN/ECE 5305") && InAttribute("UN/ECE 5153") && InAttribute("6");
    hide Attribute, InAttribute, IsAttrs;
    AttributeFits("schemeID", "UN/ECE 5305");
    AttributeFits("schemeID", "UN/ECE 5153");
    AttributeFits("schemeAgencyID", "6");
    AttrsJoin(Attribute("schemeID", "UN/ECE 5305"), Attribute("schemeAgencyID", "6"));
    AttrsJoin(Attribute("schemeID", "UN/ECE 5153"), Attribute("schemeAgencyID", "6"));
  }

  lemma PlainCategory(category: string, percent: string)
    requires NoMarkup(category) && NoMarkup(percent)
    ensures Plain(CategoryOf(category, percent))
  {
    SchemesFit();
    IdIsName();
    hide Plain, Attribute, IsAttrs;
    StepIsText();
    PlainLeaf(CBC_ID, CATEGORY_SCHEME, category);
    PlainLeaf("cbc:Percent", "", percent);
    PlainLeaf(CBC_ID, TAX_SCHEME, "VAT");
    PlainGroup("cac:TaxScheme", STEP, [Leaf(CBC_ID, TAX_SCHEME, "VAT")]);
    PlainGroup("cac:TaxCategory", STEP, CategoryOf(category, percent).sections);
  }

  lemma PlainReasons(currency: string, amount: string)
    requires InAttribute(currency) && NoMarkup(amount)
    ensures AllPlain(Reasons(currency, amount))
  {
    hide Plain, El, Money, InAttribute;
    PlainValue("cbc:ChargeIndicator", "false");
    PlainValue("cbc:AllowanceChargeReason", "discount");
    PlainMoney("cbc:Amount", currency, amount);
  }

  lemma CurrencyFits(inv: Invoice)
    requires inv.RawClean()
    ensures InAttribute(inv.Currency())
  {
  }

  lemma PlainAllowance(currency: string, a: Allowance)
    requires InAttribute(currency) && NoMarkup(a.amount) && NoMarkup(a.category) && NoMarkup(a.percent)
    ensures Plain(AllowanceOf(currency, a))
  {
    assert NoMarkup(OrDefault(a.category, "S"));
    AllowanceNames();
    StepIsText();
    hide Plain, InAttribute, NoMarkup, Reasons, CategoryOf, OrDefault, IsShort;
    PlainReasons(currency, a.amount);
    PlainCategory(OrDefault(a.category, "S"), a.percent);
    PlainGroup("cac:AllowanceCharge", STEP, AllowanceOf(currency, a).sections);
  }

  lemma AllowanceNames()
    ensures IsShort("cac:AllowanceCharge") && IsShort("cbc:LineExtensionAmount") && IsShort("cbc:TaxExclusiveAmount")
    ensures IsShort("cbc:TaxInclusiveAmount") && IsShort("cbc:AllowanceTotalAmount")
  {
  }

  lemma MonetaryNames()
    ensures IsShort("cbc:PrepaidAmount") && IsShort("cbc:PayableAmount") && IsShort("cac:LegalMonetaryTotal")
  {
  }

  lemma PlainSubtotal(currency: string, g: TextGroup)
    requires InAttribute(currency) && GroupClean(g)
    ensures Plain(SubtotalOf(currency, g))
  {
    hide Plain, InAttribute, Money, CategoryOf;
    StepIsText();
    PlainMoney("cbc:TaxableAmount", currency, g.taxable);
    PlainMoney("cbc:TaxAmount", currency, g.tax);
    PlainCategory(g.category, g.percent);
    PlainGroup("cac:TaxSubtotal", STEP, SubtotalOf(currency, g).sections);
  }

  lemma PlainTaxTotals(inv: Invoice)
    requires inv.RawClean()
    ensures AllPlain(TaxTotalsOf(inv))
  {
    CurrencyFits(inv);
    hide Plain, InAttribute, Money, SubtotalOf, Invoice.Currency, GroupClean, LineClean;
    StepIsText();
    var (cur, totals) := (inv.Currency(), TaxTotalsOf(inv));
    PlainMoney("cbc:TaxAmount", cur, inv.totalTax);
    forall i | 0 <= i < |inv.groups|
      ensures Plain(SubtotalOf(cur, inv.groups[i]))
    {
      PlainSubtotal(cur, inv.groups[i]);
    }
    PlainGroup("cac:TaxTotal", STEP, totals[0].sections);
    PlainGroup("cac:TaxTotal", STEP, totals[1].sections);
  }

  lemma PlainMonetary(inv: Invoice)
    requires inv.RawClean()
    ensures Plain(MonetaryOf(inv))
  {
    CurrencyFits(inv);
    assert NoMarkup("0.00");
    AllowanceNames();
    MonetaryNames();
    StepIsText();
    hide Plain, InAttribute, NoMarkup, Money, Invoice.Currency, GroupClean, LineClean, IsShort;
    var cur := inv.Currency();
    PlainMoney("cbc:LineExtensionAmount", cur, inv.lineExtension);
    PlainMoney("cbc:TaxExclusiveAmount", cur, inv.taxExclusive);
    PlainMoney("cbc:TaxInclusiveAmount", cur, inv.taxInclusive);
    PlainMoney("cbc:AllowanceTotalAmount", cur, inv.allowanceTotal);
    PlainMoney("cbc:PrepaidAmount", cur, "0.00");
    PlainMoney("cbc:PayableAmount", cur, inv.taxInclusive);
    PlainGroup("cac:LegalMonetaryTotal", STEP, MonetaryOf(inv).sections);
  }

  lemma PlainTotals(inv: Invoice)
    requires inv.RawClean()
    ensures AllPlain(TotalsOf(inv))
  {
    CurrencyFits(inv);
    PlainTaxTotals(inv);
    PlainMonetary(inv);
    if inv.discount.Some? { PlainAllowance(inv.Currency(), inv.discount.value); }
    hide Plain, InAttribute, Invoice.Currency, GroupClean, LineClean, AllowanceOf, TaxTotalsOf, MonetaryOf;
  }

  // ---------------------------------------------------------------- the lines

  lemma LineTaxIsPlain(currency: string, l: TextLine)
    requires InAttribute(currency) && LineClean(l)
    ensures Plain(LineTax(currency, l))
  {
    hide Plain, InAttribute, Money;
    StepIsText();
    PlainMoney("cbc:TaxAmount", currency, l.tax);
    PlainMoney("cbc:RoundingAmount", currency, l.gross);
    PlainGroup("cac:TaxTotal", STEP, LineTax(currency, l).sections);
  }

  lemma LinePriceIsPlain(currency: string, l: TextLine)
    requires InAttribute(currency) && LineClean(l)
    ensures Plain(LinePrice(currency, l))
  {
    hide Plain, InAttribute, Money, Reasons;
    StepIsText();
    PlainMoney("cbc:PriceAmount", currency, l.price);
    if l.discount.Some? {
      PlainReasons(currency, l.discount.value);
      PlainGroup("cac:AllowanceCharge", STEP, Reasons(currency, l.discount.value));
    }
    PlainGroup("cac:Price", STEP, LinePrice(currency, l).sections);
  }

  lemma PlainFits(s: Section)
    requires Plain(s)
    ensures Fits(s, SHORT) && !HoldsQr(s)
  {
  }

  /** Two sections of a group decide whether it holds an id QR when no other one does. */
  lemma GroupHolds(name: string, step: string, ss: seq<Section>, j: nat, k: nat)
    requires j < |ss| && k < |ss| && forall i | 0 <= i < |ss| && i != j && i != k :: !HoldsQr(ss[i])
    ensures HoldsQr(Group(name, step, ss)) <==> HoldsQr(ss[j]) || HoldsQr(ss[k])
  {
  }

  lemma LineNames()
    ensures IsShort("cac:Item") && IsShort("cac:ClassifiedTaxCategory") && IsShort("cac:InvoiceLine") && IsShort(CBC_ID)
    ensures IsShort("cbc:InvoicedQuantity")
  {
  }

  lemma CategoryFits(l: TextLine)
    requires LineClean(l)
    ensures Fits(LineCategory(l), SHORT) && (HoldsQr(LineCategory(l)) <==> l.category == "QR")
  {
    var ss := LineCategory(l).sections;
    LineNames();
    IdIsName();
    StepIsText();
    PlainVat();
    ValueFits(CBC_ID, l.category);
    ValueHoldsQr(CBC_ID, l.category);
    PlainLeaf("cbc:Percent", "", l.percent);
    hide Fits, HoldsQr, El, Vat, IsName;
    assert !HoldsQr(ss[1]) && !HoldsQr(ss[2]) && AllFit(ss, SHORT);
    GroupHolds("cac:ClassifiedTaxCategory", STEP, ss, 0, 0);
    GroupFits("cac:ClassifiedTaxCategory", STEP, ss, SHORT);
  }

  lemma ItemFits(l: TextLine)
    requires LineClean(l)
    ensures Fits(LineItem(l), SHORT) && (HoldsQr(LineItem(l)) <==> l.category == "QR")
  {
    var ss := LineItem(l).sections;
    LineNames();
    StepIsText();
    CategoryFits(l);
    PlainValue("cbc:Name", l.name);
    hide Fits, HoldsQr, El, LineCategory, IsName;
    assert !HoldsQr(ss[0]) && AllFit(ss, SHORT);
    GroupHolds("cac:Item", STEP, ss, 1, 1);
    GroupFits("cac:Item", STEP, ss, SHORT);
  }

  lemma NumberIsNotQr(n: nat)
    ensures DecimalNat(n) != "QR"
  {
    assert "QR"[0] == 'Q';
  }

  /** A line fits, and it holds an id QR exactly when its own id or its tax category is QR. */
  lemma LineFits(currency: string, l: TextLine, n: nat)
    requires InAttribute(currency) && LineClean(l)
    ensures Fits(LineOf(currency, l, n), SHORT) && (HoldsQr(LineOf(currency, l, n)) <==> IsQrLine(l))
  {
    var ss := LineOf(currency, l, n).sections;
    LineIdFits(l, n);
    QuantityIsPlain(l);
    LineNames();
    AllowanceNames();
    StepIsText();
    hide Attribute, InAttribute, OrDefault, DecimalNat, IsShort, NoMarkup;
    PlainMoney("cbc:LineExtensionAmount", currency, l.net);
    LineTaxIsPlain(currency, l);
    ItemFits(l);
    LinePriceIsPlain(currency, l);
    hide Fits, HoldsQr, El, Money, LineTax, LineItem, LinePrice, LineClean;
    assert !HoldsQr(ss[1]) && !HoldsQr(ss[2]) && !HoldsQr(ss[3]) && !HoldsQr(ss[5]);
    assert AllFit(ss, SHORT);
    LineIsGroup(ss);
  }

  lemma LineIsGroup(ss: seq<Section>)
    requires |ss| == 6 && AllFit(ss, SHORT) && !HoldsQr(ss[1]) && !HoldsQr(ss[2]) && !HoldsQr(ss[3]) && !HoldsQr(ss[5])
    ensures var s := Group("cac:InvoiceLine", STEP, ss);
      Fits(s, SHORT) && (HoldsQr(s) <==> HoldsQr(ss[0]) || HoldsQr(ss[4]))
  {
    LineNames();
    StepIsText();
    hide Fits, HoldsQr, IsName;
    GroupHolds("cac:InvoiceLine", STEP, ss, 0, 4);
    GroupFits("cac:InvoiceLine", STEP, ss, SHORT);
  }

  lemma LineIdFits(l: TextLine, n: nat)
    ensures var id := El(CBC_ID, OrDefault(l.id, DecimalNat(n)));
      Fits(id, SHORT) && (HoldsQr(id) <==> l.id == "QR")
  {
    var id := OrDefault(l.id, DecimalNat(n));
    LineNames();
    NumberIsNotQr(n);
    assert id == "QR" <==> l.id == "QR";
    hide IsShort, OrDefault, DecimalNat;
    ValueFits(CBC_ID, id);
    ValueHoldsQr(CBC_ID, id);
  }

  lemma QuantityIsPlain(l: TextLine)
    requires LineClean(l)
    ensures Plain(Leaf("cbc:InvoicedQuantity", Attribute("unitCode", OrDefault(l.unitCode, "PCE")), l.quantity))
  {
    LineNames();
    assert InAttribute(OrDefault(l.unitCode, "PCE"));
    hide Plain, Attribute, IsAttrs, InAttribute, OrDefault, IsShort;
    AttributeFits("unitCode", OrDefault(l.unitCode, "PCE"));
    PlainLeaf("cbc:InvoicedQuantity", Attribute("unitCode", OrDefault(l.unitCode, "PCE")), l.quantity);
  }

  /** The sections behind the QR reference fit, and an id QR among them is that of a line. */
  lemma SectionsBehind(fixed: Fixed, inv: Invoice)
    requires fixed.Clean() && inv.RawClean()
    ensures var ss := PartiesOf(fixed, inv) + TotalsOf(inv) + LinesOf(inv);
      AllFit(ss, SHORT) && (SomeHoldQr(ss) <==> inv.HasQrLine())
  {
    PlainParties(fixed, inv);
    PlainTotals(inv);
    LinesFit(inv);
    var (front, lines) := (PartiesOf(fixed, inv) + TotalsOf(inv), LinesOf(inv));
    assert AllPlain(front) by { hide PartiesOf, TotalsOf, Plain; }
    PlainAreFit(front);
    SomeOfLines(front, lines);
    hide PartiesOf, TotalsOf, LinesOf, Fits, HoldsQr, Plain, IsQrLine, SomeHoldQr, Fixed.Clean, Invoice.RawClean;
  }

  lemma PlainAreFit(ss: seq<Section>)
    requires AllPlain(ss)
    ensures AllFit(ss, SHORT)
  {
    hide Fits, HoldsQr;
  }

  lemma LinesFit(inv: Invoice)
    requires inv.RawClean()
    ensures AllFit(LinesOf(inv), SHORT) && (SomeHoldQr(LinesOf(inv)) <==> inv.HasQrLine())
  {
    CurrencyFits(inv);
    hide Invoice.Currency, InAttribute, IsQrLine, LineOf, Fits, HoldsQr, GroupClean, LineClean;
    var lines := LinesOf(inv);
    forall i | 0 <= i < |lines|
      ensures Fits(lines[i], SHORT) && (HoldsQr(lines[i]) <==> IsQrLine(inv.lines[i]))
    {
      assert LineClean(inv.lines[i]);
      LineFits(inv.Currency(), inv.lines[i], i + 1);
    }
    hide Invoice.RawClean;
    if inv.HasQrLine() {
      var i :| 0 <= i < |inv.lines| && IsQrLine(inv.lines[i]);
      assert HoldsQr(lines[i]);
    }
  }

  lemma SomeOfLines(front: seq<Section>, lines: seq<Section>)
    requires AllPlain(front)
    ensures SomeHoldQr(front + lines) <==> SomeHoldQr(lines)
  {
    hide Fits, HoldsQr;
    var ss := front + lines;
    forall i | 0 <= i < |ss|
      ensures HoldsQr(ss[i]) <==> i >= |front| && HoldsQr(lines[i - |front|])
    {
      if i < |front| { PlainFits(front[i]); }
    }
    if SomeHoldQr(lines) {
      var i :| 0 <= i < |lines| && HoldsQr(lines[i]);
      assert HoldsQr(ss[|front| + i]);
    }
  }

  // ---------------------------------------------------------------- the sections before the QR reference

  lemma HeaderNames()
    ensures IsShort("cbc:ProfileID") && IsShort(CBC_ID) && IsShort("cbc:UUID") && IsShort("cbc:IssueDate")
    ensures IsShort("cbc:IssueTime") && IsShort("cbc:InvoiceTypeCode") && IsShort("cbc:Note")
  {
  }

  lemma CodeNames()
    ensures IsShort("cbc:DocumentCurrencyCode") && IsShort("cbc:TaxCurrencyCode") && IsShort("cac:BillingReference")
    ensures IsShort("cac:InvoiceDocumentReference") && IsShort(REFERENCE) && IsShort(ATTACHMENT)
  {
  }

  lemma NoteFits(inv: Invoice)
    ensures Fits(NoteOf(inv), SHORT)
  {
    HeaderNames();
    hide Escape, OrDefault, Attribute;
    AttributeFits("languageID", Escape(OrDefault(inv.noteLang, "ar")));
  }

  lemma TypeFits(inv: Invoice)
    requires inv.RawClean()
    ensures Fits(Leaf("cbc:InvoiceTypeCode", Attribute("name", inv.subType), inv.typeCode), SHORT)
  {
    HeaderNames();
    hide Attribute, GroupClean, LineClean;
    AttributeFits("name", inv.subType);
  }

  lemma BillingFits(inv: Invoice)
    ensures Fits(BillingOf(inv), SHORT)
  {
    HeaderNames();
    CodeNames();
    StepIsText();
    hide El, IsShort, Fits;
    ValueFits(CBC_ID, inv.billingReference);
    var document := Group("cac:InvoiceDocumentReference", STEP, [El(CBC_ID, inv.billingReference)]);
    assert IsShort("cac:InvoiceDocumentReference") && IsShort("cac:BillingReference");
    ShortGroupFits("cac:InvoiceDocumentReference", [El(CBC_ID, inv.billingReference)]);
    ShortGroupFits("cac:BillingReference", [document]);
  }

  lemma ShortGroupFits(name: string, sections: seq<Section>)
    requires IsShort(name) && AllFit(sections, SHORT)
    ensures Fits(Group(name, STEP, sections), SHORT)
  {
    StepIsText();
    hide IsName;
    GroupFits(name, STEP, sections, SHORT);
  }

  lemma HeaderFits(inv: Invoice)
    requires inv.RawClean()
    ensures AllFit(HeaderOf(inv), SHORT)
  {
    HeaderNames();
    CodeNames();
    TypeFits(inv);
    hide El, IsShort, Fits, OrDefault, Invoice.Currency, NoteOf, BillingOf, Invoice.RawClean, Attribute;
    ValueFits("cbc:ProfileID", OrDefault(inv.profileID, "reporting:1.0"));
    ValueFits(CBC_ID, inv.id);
    ValueFits("cbc:UUID", inv.uuid);
    ValueFits("cbc:IssueDate", inv.date);
    ValueFits("cbc:IssueTime", inv.time);
    NoteFits(inv);
    ValueFits("cbc:DocumentCurrencyCode", inv.Currency());
    ValueFits("cbc:TaxCurrencyCode", OrDefault(inv.taxCurrency, "SAR"));
    BillingFits(inv);
  }

  lemma CounterFits(inv: Invoice)
    ensures Fits(CounterOf(inv), SHORT)
  {
    HeaderNames();
    CodeNames();
    hide El, IsShort, Fits;
    ValueFits(CBC_ID, "ICV");
    ValueFits("cbc:UUID", inv.counter);
    ShortGroupFits(REFERENCE, [El(CBC_ID, "ICV"), El("cbc:UUID", inv.counter)]);
  }

  lemma PreviousFits(inv: Invoice)
    requires inv.RawClean()
    ensures Fits(PreviousOf(inv), SHORT + 1)
  {
    HeaderNames();
    CodeNames();
    BinaryIsName();
    PlainIsAttrs();
    StepIsText();
    var binary := Leaf(BINARY, PLAIN, inv.previousHash);
    assert Fits(binary, SHORT + 1) by { hide IsName, IsAttrs, GroupClean, LineClean; }
    ValueFits(CBC_ID, "PIH");
    FitsMore(El(CBC_ID, "PIH"), SHORT, SHORT + 1);
    hide El, Fits, IsName, Invoice.RawClean;
    GroupFits(ATTACHMENT, STEP, [binary], SHORT + 1);
    GroupFits(REFERENCE, STEP, [El(CBC_ID, "PIH"), Group(ATTACHMENT, STEP, [binary])], SHORT + 1);
  }

  lemma SectionsBefore(inv: Invoice)
    requires inv.RawClean()
    ensures AllFit(HeaderOf(inv) + [CounterOf(inv), PreviousOf(inv)], SHORT + 1)
  {
    HeaderFits(inv);
    CounterFits(inv);
    PreviousFits(inv);
    var header := HeaderOf(inv);
    hide HeaderOf, CounterOf, PreviousOf, Invoice.RawClean;
    forall i | 0 <= i < |header|
      ensures Fits(header[i], SHORT + 1)
    {
      FitsMore(header[i], SHORT, SHORT + 1);
    }
    FitsMore(CounterOf(inv), SHORT, SHORT + 1);
    hide Fits;
  }

  // ---------------------------------------------------------------- no QR reference before the QR reference

  /** Enough for a section to be no QR reference. */
  ghost predicate NoReference(s: Section) {
    s.Leaf? || LocalOf(s.name) != REFERENCE_TAG || forall j | 0 <= j < |s.sections| :: NoQrId(s.sections[j])
  }

  predicate NoQrId(s: Section) {
    LocalOf(s.name) != "ID" || (s.Leaf? && TrimRight(TrimLeft(s.value)) != "QR")
  }

  lemma {:induction false} LaidAt(ss: seq<Section>, indent: string, end: string, i: nat) returns (tail: string)
    requires i < |ss|
    ensures |LaidAll(ss, indent, end)| == |ss| && LaidAll(ss, indent, end)[i] == Laid(ss[i], indent, tail)
  {
    hide Laid;
    LaidLength(ss, indent, end);
    tail := if |ss| == 1 then end else "\n" + indent;
    if i > 0 { tail := LaidAt(ss[1..], indent, end, i - 1); }
  }

  lemma {:induction false} LaidLength(ss: seq<Section>, indent: string, end: string)
    ensures |LaidAll(ss, indent, end)| == |ss|
  {
    if ss != [] { LaidLength(ss[1..], indent, end); }
  }

  lemma NotAReference(s: Section, indent: string, tail: string)
    requires NoReference(s)
    ensures !IsQrReference(Laid(s, indent, tail))
  {
    hide LocalOf, TrimRight, TrimLeft, LaidAll;
    var e := Laid(s, indent, tail);
    if s.Group? && LocalOf(s.name) == REFERENCE_TAG {
      LaidLength(s.sections, indent + s.step, "\n" + indent);
      forall j | 0 <= j < |e.children|
        ensures !IsQrId(e.children[j])
      {
        var t := LaidAt(s.sections, indent + s.step, "\n" + indent, j);
        assert NoQrId(s.sections[j]);
      }
    }
  }

  lemma NoneIsAReference(ss: seq<Section>, indent: string, end: string)
    requires forall i | 0 <= i < |ss| :: NoReference(ss[i])
    ensures NoQr(LaidAll(ss, indent, end))
  {
    hide NoReference, IsQrReference, Laid, LaidAll;
    LaidLength(ss, indent, end);
    forall i | 0 <= i < |ss|
      ensures !IsQrReference(LaidAll(ss, indent, end)[i])
    {
      var tail := LaidAt(ss, indent, end, i);
      NotAReference(ss[i], indent, tail);
    }
  }

  lemma LocalNames()
    ensures LocalOf("cac:BillingReference") == "BillingReference" && LocalOf("cbc:UUID") == "UUID"
    ensures LocalOf(ATTACHMENT) == "Attachment"
  {
    assert "cac:BillingReference" == "cac" + ":" + "BillingReference";
    assert "cbc:UUID" == "cbc" + ":" + "UUID" && ATTACHMENT == "cac" + ":" + "Attachment";
    hide LocalOf, PrefixOf, ColonAt;
    Qualified("cac", "BillingReference");
    Qualified("cbc", "UUID");
    Qualified("cac", "Attachment");
  }

  lemma OtherIds()
    ensures TrimRight(TrimLeft(Escape("ICV"))) != "QR" && TrimRight(TrimLeft(Escape("PIH"))) != "QR"
  {
    assert Escape("ICV")[0] == 'I' && Escape("PIH")[0] == 'P';
    FirstIsKept(Escape("ICV"));
    FirstIsKept(Escape("PIH"));
    assert "QR"[0] == 'Q';
  }

  lemma FirstIsKept(s: string)
    requires s != "" && !IsSpace(s[0])
    ensures var t := TrimRight(TrimLeft(s)); t != "" && t[0] == s[0]
  {
    assert TrimLeft(s) == s;
    FirstStays(s);
  }

  lemma {:induction false} FirstStays(s: string)
    requires s != "" && !IsSpace(s[0])
    ensures TrimRight(s) != "" && TrimRight(s)[0] == s[0]
  {
    if |s| > 1 && IsSpace(s[|s| - 1]) { FirstStays(s[..|s| - 1]); }
  }

  lemma NoReferenceBefore(inv: Invoice)
    ensures NoQr(Before(inv))
  {
    var ss := HeaderOf(inv) + [CounterOf(inv), PreviousOf(inv)];
    LocalNames();
    OtherIds();
    BillingIsNoReference(inv);
    hide LocalOf, TrimRight, TrimLeft, Escape, BillingOf, Invoice.Currency, Attribute, OrDefault;
    assert NoReference(CounterOf(inv)) && NoReference(PreviousOf(inv));
    forall i | 0 <= i < |HeaderOf(inv)|
      ensures NoReference(HeaderOf(inv)[i])
    {
    }
    hide NoReference, HeaderOf, CounterOf, PreviousOf;
    NoneIsAReference(ss, STEP, "\n    ");
  }

  lemma BillingIsNoReference(inv: Invoice)
    ensures NoReference(BillingOf(inv))
  {
    LocalNames();
    hide LocalOf;
    assert |"BillingReference"| == 16 && |REFERENCE_TAG| == 27;
  }

  // ---------------------------------------------------------------- signing an invoice

  /** What ToXML writes around the QR reference is clean, names no second QR reference before it and no binary object
      behind it, and holds a second QR id behind it exactly when a line is numbered or coded QR. */
  lemma SectionsAreClean(fixed: Fixed, inv: Invoice)
    requires fixed.Clean() && inv.RawClean()
    ensures CleanTrees(Before(inv)) && CleanTrees(After(fixed, inv)) && NoQr(Before(inv))
    ensures NoBinary(FlattenAll(After(fixed, inv))) && (HasQrId(FlattenAll(After(fixed, inv))) <==> inv.HasQrLine())
  {
    var front := HeaderOf(inv) + [CounterOf(inv), PreviousOf(inv)];
    var back := PartiesOf(fixed, inv) + TotalsOf(inv) + LinesOf(inv);
    SectionsBefore(inv);
    SectionsBehind(fixed, inv);
    NoReferenceBefore(inv);
    StepIsText();
    SpacesAreText();
    hide HeaderOf, CounterOf, PreviousOf, PartiesOf, TotalsOf, LinesOf, LaidAll, FlattenAll, AllFit, SomeHoldQr,
      NoMarkup, Fixed.Clean, Invoice.RawClean, Invoice.HasQrLine, HasQrId, CleanTrees, NoQr;
    LaidIsClean(front, SHORT + 1, STEP, "\n    ");
    LaidIsClean(back, SHORT, STEP, "\n");
    QrIdOfSections(back, STEP, "\n");
  }

  /** Main result: signing the text of an invoice puts in the signature and, unless a line is numbered or coded QR, the
      QR code, and nothing else. The text and the signed text each stand for one clean tree, and both trees are stripped
      to the same. */
  lemma SignedInvoice(spaces: map<string, string>, fixed: Fixed, inv: Invoice, s: Signature, qr: string, text: string)
    requires "ext" in spaces && spaces["ext"] == NS_EXT
    requires fixed.Clean() && inv.RawClean() && s.Clean() && NoMarkup(qr) && ToXML(fixed, inv) == Some(text)
    ensures var signed := InjectQR(InjectSignature(text, s.Text()), qr);
      && signed == Document(fixed, Some(s), Before(inv), if inv.HasQrLine() then "" else qr, After(fixed, inv))
      && (exists e :: Parses(text, e)) && (exists f :: Parses(signed, f))
      && forall e, f :: Parses(text, e) && Parses(signed, f) ==> Stripped(spaces, e) == Stripped(spaces, f)
  {
    hide Fixed.Clean, Invoice.RawClean, Invoice.Validates, Invoice.HasQrLine, Signature.Clean, Signature.Text, NoMarkup,
      Before, After, Document, InjectQR, InjectSignature, FlattenAll, Proper, Clean, NoQr, NoBinary, HasQrId, Parses,
      Stripped;
    SectionsAreClean(fixed, inv);
    SigningEditsTwoPlaces(fixed, Before(inv), After(fixed, inv), s, qr);
    SigningKeepsTheDigestInput(spaces, fixed, Before(inv), After(fixed, inv), s, qr);
  }

  /** The limit of the search for the last QR id: a line numbered or coded QR keeps the QR code out. */
  lemma QrLineKeepsTheCodeOut(fixed: Fixed, inv: Invoice, s: Signature, qr: string, text: string)
    requires fixed.Clean() && inv.RawClean() && ToXML(fixed, inv) == Some(text) && inv.HasQrLine()
    ensures InjectQR(InjectSignature(text, s.Text()), qr) == InjectSignature(text, s.Text())
  {
    hide Fixed.Clean, Invoice.RawClean, Invoice.Validates, Invoice.HasQrLine, Signature.Text, Before, After, Document,
      InjectQR, InjectSignature, FlattenAll, Clean, NoQr, NoBinary, HasQrId, Proper;
    SectionsAreClean(fixed, inv);
    DocumentGetsSignature(fixed, Before(inv), After(fixed, inv), s);
    DocumentGetsQr(fixed, Some(s), Before(inv), qr, After(fixed, inv));
  }

  /** The text of a line shows an item: its id, name, unit code and category. */
  predicate Shows(l: TextLine, item: Amounts.LineItem) {
    l.id == item.id && l.name == item.name && l.unitCode == item.unitCode && l.category == item.line.category
  }

  /** No line that shows an item of buildLines is a QR line, so the QR code of a bill always finds its place. */
  lemma BilledLinesAreNoQrLines(products: seq<Amounts.Product>, inv: Invoice)
    requires |inv.lines| == |products|
    requires forall i | 0 <= i < |inv.lines| :: Shows(inv.lines[i], Amounts.ItemsOf(products)[i])
    ensures !inv.HasQrLine()
  {
    hide DecimalNat, Amounts.Product.Name;
    forall i | 0 <= i < |inv.lines|
      ensures !IsQrLine(inv.lines[i])
    {
      assert Shows(inv.lines[i], Amounts.ItemsOf(products)[i]);
      assert Amounts.ItemsOf(products)[i].line == Amounts.LinesOf(products)[i];
      NumberIsNotQr(i + 1);
      assert "S"[0] != "QR"[0];
    }
  }
}
