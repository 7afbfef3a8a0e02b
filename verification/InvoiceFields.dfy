/** Under which names a reader finds the fields of an invoice in the text that ToXML writes (invoice/xml.go). */
module InvoiceFields {
  import opened Text
  import opened Markup
  import opened Signing
  import opened Digest
  import opened InvoiceXml

  /** The names on the way to a value, and the attributes of its element. */
  datatype Path = Field(name: string, attrs: string) | In(name: string, rest: Path)

  /** A path leads to this text from one of the elements. */
  ghost predicate Holds(es: seq<Element>, path: Path, text: string)
    decreases path
  {
    exists e | e in es ::
      e.name == path.name && match path
                             case Field(_, attrs) => e.attrs == attrs && e.text == text
                             case In(_, rest) => Holds(e.children, rest, text)
  }

  /** The same from one section. */
  ghost predicate Shows(s: Section, path: Path, text: string)
    decreases path
  {
    && s.name == path.name
    && match path
       case Field(_, attrs) => s.Leaf? && s.attrs == attrs && s.value == text
       case In(_, rest) => s.Group? && exists t | t in s.sections :: Shows(t, rest, text)
  }

  ghost predicate SomeShows(ss: seq<Section>, path: Path, text: string) {
    exists s | s in ss :: Shows(s, path, text)
  }

  lemma {:induction false} LaidHolds(ss: seq<Section>, indent: string, end: string, path: Path, text: string)
    requires SomeShows(ss, path, text)
    ensures Holds(LaidAll(ss, indent, end), path, text)
    decreases path
  {
    var s :| s in ss && Shows(s, path, text);
    var i :| 0 <= i < |ss| && ss[i] == s;
    var tail := LaidAt(ss, indent, end, i);
    hide LaidAll;
    var e := LaidAll(ss, indent, end)[i];
    assert e in LaidAll(ss, indent, end) && e.name == path.name;
    match path
    case Field(_, _) =>
    case In(_, rest) =>
      LaidHolds(s.sections, indent + s.step, "\n" + indent, rest, text);
  }

  lemma MoreHold(es: seq<Element>, more: seq<Element>, path: Path, text: string)
    requires forall e | e in es :: e in more
    requires Holds(es, path, text)
    ensures Holds(more, path, text)
  {
  }

  // ---------------------------------------------------------------- the fields

  /** A text at the end of a path. */
  datatype Entry = Entry(path: Path, text: string)

  /** A value that is written escaped. */
  function Value(name: string, value: string): seq<Entry> {
    [Entry(Field(name, ""), Escape(value))]
  }

  /** A value that is written as it is. */
  function Raw(name: string, value: string): seq<Entry> {
    [Entry(Field(name, ""), value)]
  }

  function Attr(name: string, value: string): string {
    " " + name + "=\"" + value + "\""
  }

  /** A value with one attribute. */
  function With(name: string, attribute: string, of: string, value: string): seq<Entry> {
    [Entry(Field(name, Attr(attribute, of)), value)]
  }

  /** An amount in a currency. */
  function Amount(name: string, currency: string, amount: string): seq<Entry> {
    With(name, "currencyID", if currency == "" then "SAR" else currency, amount)
  }

  /** A category or scheme of the code lists 5305 and 5153. */
  function Coded(list: string, value: string): seq<Entry> {
    [Entry(Field("cbc:ID", Attr("schemeID", "UN/ECE " + list) + Attr("schemeAgencyID", "6")), value)]
  }

  function When(there: bool, entries: seq<Entry>): seq<Entry> {
    if there then entries else []
  }

  /** The same entries below one more name. */
  function Under(name: string, entries: seq<Entry>): seq<Entry> {
    seq(|entries|, i requires 0 <= i < |entries| => Entry(In(name, entries[i].path), entries[i].text))
  }

  ghost predicate AllHold(es: seq<Element>, entries: seq<Entry>) {
    forall f | f in entries :: Holds(es, f.path, f.text)
  }

  function NumberFields(inv: Invoice): seq<Entry> {
    Value("cbc:ProfileID", if inv.profileID == "" then "reporting:1.0" else inv.profileID)
    + Value("cbc:ID", inv.id)
    + Value("cbc:UUID", inv.uuid)
    + Value("cbc:IssueDate", inv.date)
    + Value("cbc:IssueTime", inv.time)
    + With("cbc:InvoiceTypeCode", "name", inv.subType, inv.typeCode)
  }

  function NoteField(inv: Invoice): seq<Entry> {
    With("cbc:Note", "languageID", Escape(if inv.noteLang == "" then "ar" else inv.noteLang), Escape(inv.note))
  }

  function HeaderFields(inv: Invoice): seq<Entry> {
    NumberFields(inv)
    + Value("cbc:DocumentCurrencyCode", if inv.documentCurrency == "" then "SAR" else inv.documentCurrency)
    + Value("cbc:TaxCurrencyCode", if inv.taxCurrency == "" then "SAR" else inv.taxCurrency)
    + When(inv.note != "", NoteField(inv))
    + When(inv.billingReference != "",
           Under("cac:BillingReference",
                 Under("cac:InvoiceDocumentReference", Value("cbc:ID", inv.billingReference))))
  }

  function CounterFields(inv: Invoice): seq<Entry> {
    Value("cbc:ID", "ICV") + Value("cbc:UUID", inv.counter)
  }

  function PreviousFields(inv: Invoice): seq<Entry> {
    Value("cbc:ID", "PIH") + Under("cac:Attachment", Binary(inv.previousHash))
  }

  function Binary(text: string): seq<Entry> {
    With("cbc:EmbeddedDocumentBinaryObject", "mimeCode", "text/plain", text)
  }

  function AddressFields(p: Party): seq<Entry> {
    Value("cbc:StreetName", p.street)
    + Value("cbc:CityName", p.city)
    + Value("cbc:PostalZone", p.postalCode)
    + When(p.building != "", Value("cbc:BuildingNumber", p.building))
    + When(p.district != "", Value("cbc:CitySubdivisionName", p.district))
    + Under("cac:Country", Value("cbc:IdentificationCode", if p.country == "" then "SA" else p.country))
  }

  function IdentityFields(p: Party): seq<Entry> {
    Under("cac:PartyTaxScheme", VatFields(p))
  }

  function VatFields(p: Party): seq<Entry> {
    Value("cbc:CompanyID", p.vat) + Under("cac:TaxScheme", Value("cbc:ID", "VAT"))
  }

  function IdField(p: Party): seq<Entry> {
    With("cbc:ID", "schemeID", Escape(if p.schemeID == "" then "CRN" else p.schemeID), Escape(p.id))
  }

  function NameFields(p: Party): seq<Entry> {
    Under("cac:PartyLegalEntity",
          Value("cbc:RegistrationName", if p.nameAR == "" then p.name else p.nameAR + " | " + p.name))
  }

  /** A supplier always has a VAT number and a name. */
  function SupplierFields(p: Party): seq<Entry> {
    When(p.id != "", Under("cac:PartyIdentification", IdField(p)))
    + Under("cac:PostalAddress", AddressFields(p)) + IdentityFields(p) + NameFields(p)
  }

  function CustomerFields(p: Party): seq<Entry> {
    Under("cac:PostalAddress", AddressFields(p)) + When(p.vat != "", IdentityFields(p))
    + When(p.name != "", NameFields(p))
  }

  function PartyFields(inv: Invoice): seq<Entry> {
    Under("cac:AccountingSupplierParty", Under("cac:Party", SupplierFields(inv.supplier)))
    + Under("cac:AccountingCustomerParty", Under("cac:Party", CustomerFields(inv.customer)))
  }

  function PaymentFields(inv: Invoice): seq<Entry> {
    When(inv.standard || inv.delivery.Some?,
         Under("cac:Delivery",
               Value("cbc:ActualDeliveryDate", if inv.delivery.Some? then inv.delivery.value else inv.date)))
    + Under("cac:PaymentMeans",
            Value("cbc:PaymentMeansCode", if inv.paymentMeans == "" then "10" else inv.paymentMeans)
            + When(inv.instructionNote != "", Value("cbc:InstructionNote", inv.instructionNote)))
  }

  function SignatureFields(fixed: Fixed): seq<Entry> {
    Under("cac:Signature", Value("cbc:ID", fixed.reference) + Value("cbc:SignatureMethod", fixed.uri))
  }

  /** The payable amount is the inclusive one. */
  function AmountFields(inv: Invoice): seq<Entry> {
    var cur := inv.documentCurrency;
    Amount("cbc:LineExtensionAmount", cur, inv.lineExtension)
    + Amount("cbc:TaxExclusiveAmount", cur, inv.taxExclusive)
    + Amount("cbc:TaxInclusiveAmount", cur, inv.taxInclusive)
    + Amount("cbc:AllowanceTotalAmount", cur, inv.allowanceTotal)
    + Amount("cbc:PrepaidAmount", cur, "0.00")
    + Amount("cbc:PayableAmount", cur, inv.taxInclusive)
  }

  function CategoryFields(category: string, percent: string): seq<Entry> {
    Coded("5305", category) + Raw("cbc:Percent", percent) + Under("cac:TaxScheme", Coded("5153", "VAT"))
  }

  function ReasonFields(currency: string, amount: string): seq<Entry> {
    Value("cbc:ChargeIndicator", "false") + Value("cbc:AllowanceChargeReason", "discount")
    + Amount("cbc:Amount", currency, amount)
  }

  function DiscountFields(currency: string, a: Allowance): seq<Entry> {
    ReasonFields(currency, a.amount)
    + Under("cac:TaxCategory", CategoryFields(if a.category == "" then "S" else a.category, a.percent))
  }

  function TotalFields(inv: Invoice): seq<Entry> {
    Under("cac:TaxTotal", Amount("cbc:TaxAmount", inv.documentCurrency, inv.totalTax))
    + Under("cac:LegalMonetaryTotal", AmountFields(inv))
    + if inv.discount.Some? then Under("cac:AllowanceCharge", DiscountFields(inv.documentCurrency, inv.discount.value))
      else []
  }

  /** The fields of one subtotal of the taxes. */
  function GroupFields(currency: string, g: TextGroup): seq<Entry> {
    Amount("cbc:TaxableAmount", currency, g.taxable)
    + Amount("cbc:TaxAmount", currency, g.tax)
    + Under("cac:TaxCategory", CategoryFields(g.category, g.percent))
  }

  function LineTaxFields(currency: string, l: TextLine): seq<Entry> {
    Amount("cbc:TaxAmount", currency, l.tax) + Amount("cbc:RoundingAmount", currency, l.gross)
  }

  function LineCategoryFields(l: TextLine): seq<Entry> {
    Value("cbc:ID", l.category) + Raw("cbc:Percent", l.percent) + Under("cac:TaxScheme", Value("cbc:ID", "VAT"))
  }

  function LinePriceFields(currency: string, l: TextLine): seq<Entry> {
    Amount("cbc:PriceAmount", currency, l.price)
    + if l.discount.Some? then Under("cac:AllowanceCharge", ReasonFields(currency, l.discount.value)) else []
  }

  /** The fields of one line, under its own id or its number. */
  function LineFields(currency: string, l: TextLine, number: nat): seq<Entry> {
    Value("cbc:ID", if l.id == "" then DecimalNat(number) else l.id)
    + With("cbc:InvoicedQuantity", "unitCode", if l.unitCode == "" then "PCE" else l.unitCode, l.quantity)
    + Amount("cbc:LineExtensionAmount", currency, l.net)
    + Under("cac:TaxTotal", LineTaxFields(currency, l))
    + Under("cac:Item", Value("cbc:Name", l.name) + Under("cac:ClassifiedTaxCategory", LineCategoryFields(l)))
    + Under("cac:Price", LinePriceFields(currency, l))
  }

  /** One element of this name holds all entries. */
  ghost predicate OneHolds(es: seq<Element>, name: string, entries: seq<Entry>) {
    exists e | e in es :: e.name == name && AllHold(e.children, entries)
  }

  // ---------------------------------------------------------------- where they stand in the sections

  ghost predicate AllShow(ss: seq<Section>, entries: seq<Entry>) {
    forall f | f in entries :: SomeShows(ss, f.path, f.text)
  }

  lemma LeafShows(ss: seq<Section>, s: Section)
    requires s in ss && s.Leaf?
    ensures SomeShows(ss, Field(s.name, s.attrs), s.value)
  {
    assert Shows(s, Field(s.name, s.attrs), s.value);
  }

  /** A group shows what its sections show. */
  lemma GroupShows(ss: seq<Section>, s: Section, entries: seq<Entry>)
    requires s in ss && s.Group? && AllShow(s.sections, entries)
    ensures AllShow(ss, Under(s.name, entries))
  {
    var under := Under(s.name, entries);
    forall f | f in under
      ensures SomeShows(ss, f.path, f.text)
    {
      var i :| 0 <= i < |under| && under[i] == f;
      assert entries[i] in entries;
      assert Shows(s, f.path, f.text);
    }
  }

  lemma ValueShows(ss: seq<Section>, name: string, value: string)
    requires El(name, value) in ss
    ensures AllShow(ss, Value(name, value))
  {
    hide SomeShows, Escape;
    LeafShows(ss, El(name, value));
  }

  lemma RawShows(ss: seq<Section>, name: string, value: string)
    requires Leaf(name, "", value) in ss
    ensures AllShow(ss, Raw(name, value))
  {
    hide SomeShows;
    LeafShows(ss, Leaf(name, "", value));
  }

  lemma AttrIsWritten(name: string, value: string)
    ensures Attr(name, value) == Attribute(name, value)
  {
  }

  lemma WithShows(ss: seq<Section>, name: string, attribute: string, of: string, value: string)
    requires Leaf(name, Attribute(attribute, of), value) in ss
    ensures AllShow(ss, With(name, attribute, of, value))
  {
    AttrIsWritten(attribute, of);
    hide SomeShows, Attribute, Attr;
    LeafShows(ss, Leaf(name, Attribute(attribute, of), value));
  }

  lemma AmountShows(ss: seq<Section>, name: string, currency: string, amount: string)
    requires Money(name, OrDefault(currency, "SAR"), amount) in ss
    ensures AllShow(ss, Amount(name, currency, amount))
  {
    hide AllShow, Attribute, With;
    WithShows(ss, name, "currencyID", OrDefault(currency, "SAR"), amount);
  }

  /** What one list of sections shows is shown all together. */
  lemma Joins(ss: seq<Section>)
    ensures AllShow(ss, [])
    ensures forall a, b {:trigger AllShow(ss, a + b)} | AllShow(ss, a) && AllShow(ss, b) :: AllShow(ss, a + b)
  {
    hide SomeShows;
  }

  /** A group of this name shows these entries. */
  ghost predicate Groups(s: Section, name: string, entries: seq<Entry>) {
    s.Group? && s.name == name && AllShow(s.sections, entries)
  }

  lemma GroupJoins(ss: seq<Section>, s: Section, name: string, entries: seq<Entry>)
    requires s in ss && Groups(s, name, entries)
    ensures AllShow(ss, Under(name, entries))
  {
    GroupShows(ss, s, entries);
  }

  /** A group around one value. */
  lemma OneValue(name: string, inner: string, value: string)
    ensures Groups(Group(name, STEP, [El(inner, value)]), name, Value(inner, value))
  {
    hide AllShow, El;
    ValueShows([El(inner, value)], inner, value);
  }

  function CountryOf(p: Party): Section {
    Group("cac:Country", STEP, [El("cbc:IdentificationCode", OrDefault(p.country, "SA"))])
  }

  lemma AddressParts(p: Party)
    ensures var ss := AddressOf(p).sections;
      && El("cbc:StreetName", p.street) in ss && El("cbc:CityName", p.city) in ss
      && El("cbc:PostalZone", p.postalCode) in ss && CountryOf(p) in ss
      && (p.building != "" ==> El("cbc:BuildingNumber", p.building) in ss)
      && (p.district != "" ==> El("cbc:CitySubdivisionName", p.district) in ss)
  {
    hide El, OrDefault;
  }

  lemma AddressShows(p: Party)
    ensures Groups(AddressOf(p), "cac:PostalAddress", AddressFields(p))
  {
    AddressParts(p);
    var ss := AddressOf(p).sections;
    IsGroupOf(AddressOf(p), "cac:PostalAddress", ss);
    OneValue("cac:Country", "cbc:IdentificationCode", OrDefault(p.country, "SA"));
    hide AllShow, Under, El, Value, AddressOf;
    GroupJoins(ss, CountryOf(p), "cac:Country", Value("cbc:IdentificationCode", OrDefault(p.country, "SA")));
    ValueShows(ss, "cbc:StreetName", p.street);
    ValueShows(ss, "cbc:CityName", p.city);
    ValueShows(ss, "cbc:PostalZone", p.postalCode);
    if p.building != "" { ValueShows(ss, "cbc:BuildingNumber", p.building); }
    if p.district != "" { ValueShows(ss, "cbc:CitySubdivisionName", p.district); }
    Joins(ss);
  }

  lemma IsGroupOf(s: Section, name: string, ss: seq<Section>)
    requires s.Group? && s.name == name && s.sections == ss
    ensures forall entries | AllShow(ss, entries) :: Groups(s, name, entries)
  {
    hide AllShow;
  }

  lemma IdentityShows(p: Party)
    ensures Groups(TaxSchemeOf(p), "cac:PartyTaxScheme", VatFields(p))
    ensures Groups(EntityOf(p), "cac:PartyLegalEntity",
                   Value("cbc:RegistrationName", if p.nameAR == "" then p.name else p.nameAR + " | " + p.name))
    ensures Groups(IdentificationOf(p), "cac:PartyIdentification", IdField(p))
  {
    hide AllShow, Attribute, Escape, El, Value, With, Under;
    var ss := TaxSchemeOf(p).sections;
    OneValue("cac:TaxScheme", "cbc:ID", "VAT");
    GroupJoins(ss, Vat(), "cac:TaxScheme", Value("cbc:ID", "VAT"));
    ValueShows(ss, "cbc:CompanyID", p.vat);
    Joins(ss);
    ValueShows(EntityOf(p).sections, "cbc:RegistrationName", RegistrationName(p));
    WithShows(IdentificationOf(p).sections, "cbc:ID", "schemeID", Escape(OrDefault(p.schemeID, "CRN")), Escape(p.id));
  }

  lemma SupplierShows(p: Party)
    ensures Groups(SupplierOf(p), "cac:AccountingSupplierParty", Under("cac:Party", SupplierFields(p)))
  {
    AddressShows(p);
    IdentityShows(p);
    hide AllShow, Groups, Under, Value, VatFields, IdField, AddressFields, AddressOf, TaxSchemeOf, EntityOf,
      IdentificationOf;
    var party := SupplierOf(p).sections[0];
    var ss := party.sections;
    GroupJoins(ss, AddressOf(p), "cac:PostalAddress", AddressFields(p));
    GroupJoins(ss, TaxSchemeOf(p), "cac:PartyTaxScheme", VatFields(p));
    GroupJoins(ss, EntityOf(p), "cac:PartyLegalEntity",
               Value("cbc:RegistrationName", if p.nameAR == "" then p.name else p.nameAR + " | " + p.name));
    if p.id != "" {
      GroupJoins(ss, IdentificationOf(p), "cac:PartyIdentification", IdField(p));
    }
    Joins(ss);
    Nested("cac:AccountingSupplierParty", "cac:Party", ss, SupplierFields(p));
  }

  lemma CustomerShows(p: Party)
    ensures Groups(CustomerOf(p), "cac:AccountingCustomerParty", Under("cac:Party", CustomerFields(p)))
  {
    AddressShows(p);
    IdentityShows(p);
    hide AllShow, Groups, Under, Value, VatFields, IdField, AddressFields, AddressOf, TaxSchemeOf, EntityOf;
    var ss := CustomerOf(p).sections[0].sections;
    GroupJoins(ss, AddressOf(p), "cac:PostalAddress", AddressFields(p));
    if p.vat != "" { GroupJoins(ss, TaxSchemeOf(p), "cac:PartyTaxScheme", VatFields(p)); }
    if p.name != "" {
      GroupJoins(ss, EntityOf(p), "cac:PartyLegalEntity",
                 Value("cbc:RegistrationName", if p.nameAR == "" then p.name else p.nameAR + " | " + p.name));
    }
    Joins(ss);
    Nested("cac:AccountingCustomerParty", "cac:Party", ss, CustomerFields(p));
  }

  /** A group in a group. */
  lemma Nested(outer: string, inner: string, ss: seq<Section>, entries: seq<Entry>)
    requires AllShow(ss, entries)
    ensures Groups(Group(outer, STEP, [Group(inner, STEP, ss)]), outer, Under(inner, entries))
  {
    hide AllShow;
    GroupJoins([Group(inner, STEP, ss)], Group(inner, STEP, ss), inner, entries);
  }

  lemma BillingShows(inv: Invoice)
    ensures Groups(BillingOf(inv), "cac:BillingReference",
                   Under("cac:InvoiceDocumentReference", Value("cbc:ID", inv.billingReference)))
  {
    hide AllShow, Under, El, Value;
    ValueShows([El("cbc:ID", inv.billingReference)], "cbc:ID", inv.billingReference);
    Nested("cac:BillingReference", "cac:InvoiceDocumentReference", [El("cbc:ID", inv.billingReference)],
           Value("cbc:ID", inv.billingReference));
  }

  lemma HeaderParts(inv: Invoice)
    ensures var ss := HeaderOf(inv);
      && El("cbc:ProfileID", OrDefault(inv.profileID, "reporting:1.0")) in ss && El("cbc:ID", inv.id) in ss
      && El("cbc:UUID", inv.uuid) in ss && El("cbc:IssueDate", inv.date) in ss && El("cbc:IssueTime", inv.time) in ss
      && Leaf("cbc:InvoiceTypeCode", Attribute("name", inv.subType), inv.typeCode) in ss
      && El("cbc:DocumentCurrencyCode", OrDefault(inv.documentCurrency, "SAR")) in ss
      && El("cbc:TaxCurrencyCode", OrDefault(inv.taxCurrency, "SAR")) in ss
      && (inv.note != "" ==> NoteOf(inv) in ss) && (inv.billingReference != "" ==> BillingOf(inv) in ss)
  {
    hide El, OrDefault, Attribute, NoteOf, BillingOf;
    var ss := HeaderOf(inv);
    assert ss[0] in ss && ss[1] in ss && ss[2] in ss && ss[3] in ss && ss[4] in ss && ss[5] in ss;
  }

  lemma HeaderShows(inv: Invoice)
    ensures AllShow(HeaderOf(inv), HeaderFields(inv))
  {
    hide AllShow, Under, El, Value, NoteField, NoteOf, BillingOf, Attribute, HeaderOf, When;
    HeaderParts(inv);
    var ss := HeaderOf(inv);
    NumbersShow(ss, inv);
    hide NumberFields;
    ValueShows(ss, "cbc:DocumentCurrencyCode", OrDefault(inv.documentCurrency, "SAR"));
    ValueShows(ss, "cbc:TaxCurrencyCode", OrDefault(inv.taxCurrency, "SAR"));
    OptionsShow(ss, inv);
    Joins(ss);
  }

  lemma NumbersShow(ss: seq<Section>, inv: Invoice)
    requires El("cbc:ProfileID", OrDefault(inv.profileID, "reporting:1.0")) in ss && El("cbc:ID", inv.id) in ss
    requires El("cbc:UUID", inv.uuid) in ss && El("cbc:IssueDate", inv.date) in ss
    requires El("cbc:IssueTime", inv.time) in ss
    requires Leaf("cbc:InvoiceTypeCode", Attribute("name", inv.subType), inv.typeCode) in ss
    ensures AllShow(ss, NumberFields(inv))
  {
    hide AllShow, El, Value, With, Attribute;
    ValueShows(ss, "cbc:ProfileID", OrDefault(inv.profileID, "reporting:1.0"));
    ValueShows(ss, "cbc:ID", inv.id);
    ValueShows(ss, "cbc:UUID", inv.uuid);
    ValueShows(ss, "cbc:IssueDate", inv.date);
    ValueShows(ss, "cbc:IssueTime", inv.time);
    WithShows(ss, "cbc:InvoiceTypeCode", "name", inv.subType, inv.typeCode);
    Joins(ss);
  }

  lemma OptionsShow(ss: seq<Section>, inv: Invoice)
    requires (inv.note != "" ==> NoteOf(inv) in ss) && (inv.billingReference != "" ==> BillingOf(inv) in ss)
    ensures AllShow(ss, When(inv.note != "", NoteField(inv)))
    ensures AllShow(ss, When(inv.billingReference != "",
                             Under("cac:BillingReference",
                                   Under("cac:InvoiceDocumentReference", Value("cbc:ID", inv.billingReference)))))
  {
    hide AllShow, Groups, Under, Value, NoteField, NoteOf, BillingOf;
    Joins(ss);
    if inv.note != "" { NoteShows(ss, inv); }
    if inv.billingReference != "" {
      BillingShows(inv);
      GroupJoins(ss, BillingOf(inv), "cac:BillingReference",
                 Under("cac:InvoiceDocumentReference", Value("cbc:ID", inv.billingReference)));
    }
  }

  lemma NoteShows(ss: seq<Section>, inv: Invoice)
    requires NoteOf(inv) in ss
    ensures AllShow(ss, NoteField(inv))
  {
    hide AllShow, Escape, Attribute, With;
    WithShows(ss, "cbc:Note", "languageID", Escape(OrDefault(inv.noteLang, "ar")), Escape(inv.note));
  }

  lemma PlainAttribute()
    ensures PLAIN == Attribute("mimeCode", "text/plain") == Attr("mimeCode", "text/plain")
  {
    AttrIsWritten("mimeCode", "text/plain");
  }

  lemma BinaryShows(text: string)
    ensures AllShow([Leaf(BINARY, PLAIN, text)], Binary(text))
  {
    PlainAttribute();
    hide AllShow, Attribute, With;
    WithShows([Leaf(BINARY, PLAIN, text)], BINARY, "mimeCode", "text/plain", text);
  }

  lemma ReferencesShow(inv: Invoice)
    ensures Groups(CounterOf(inv), REFERENCE, CounterFields(inv))
    ensures Groups(PreviousOf(inv), REFERENCE, PreviousFields(inv))
  {
    hide AllShow, Under, El, Value, Binary;
    var (c, p, attachment) := (CounterOf(inv).sections, PreviousOf(inv).sections,
                               [Leaf(BINARY, PLAIN, inv.previousHash)]);
    ValueShows(c, "cbc:ID", "ICV");
    ValueShows(c, "cbc:UUID", inv.counter);
    Joins(c);
    BinaryShows(inv.previousHash);
    GroupJoins(p, Group(ATTACHMENT, STEP, attachment), ATTACHMENT, Binary(inv.previousHash));
    ValueShows(p, "cbc:ID", "PIH");
    Joins(p);
  }

  lemma SignatureShows(fixed: Fixed)
    ensures Groups(SignatureOf(fixed), "cac:Signature",
                   Value("cbc:ID", fixed.reference) + Value("cbc:SignatureMethod", fixed.uri))
  {
    hide AllShow, El, Value;
    var ss := SignatureOf(fixed).sections;
    ValueShows(ss, "cbc:ID", fixed.reference);
    ValueShows(ss, "cbc:SignatureMethod", fixed.uri);
    Joins(ss);
  }

  lemma PaymentShows(inv: Invoice)
    ensures Groups(DeliveryOf(inv), "cac:Delivery",
                   Value("cbc:ActualDeliveryDate", if inv.delivery.Some? then inv.delivery.value else inv.date))
    ensures Groups(PaymentOf(inv), "cac:PaymentMeans",
                   Value("cbc:PaymentMeansCode", if inv.paymentMeans == "" then "10" else inv.paymentMeans)
                   + When(inv.instructionNote != "", Value("cbc:InstructionNote", inv.instructionNote)))
  {
    hide AllShow, El, Value;
    OneValue("cac:Delivery", "cbc:ActualDeliveryDate", if inv.delivery.Some? then inv.delivery.value else inv.date);
    var ss := PaymentOf(inv).sections;
    ValueShows(ss, "cbc:PaymentMeansCode", OrDefault(inv.paymentMeans, "10"));
    if inv.instructionNote != "" { ValueShows(ss, "cbc:InstructionNote", inv.instructionNote); }
    Joins(ss);
  }

  lemma PartiesShow(fixed: Fixed, inv: Invoice)
    ensures AllShow(PartiesOf(fixed, inv), PartyFields(inv) + PaymentFields(inv) + SignatureFields(fixed))
  {
    SignatureShows(fixed);
    SupplierShows(inv.supplier);
    CustomerShows(inv.customer);
    PaymentShows(inv);
    hide AllShow, Groups, Under, Value, SupplierFields, CustomerFields, SignatureOf, SupplierOf, CustomerOf, DeliveryOf,
      PaymentOf;
    var ss := PartiesOf(fixed, inv);
    GroupJoins(ss, SignatureOf(fixed), "cac:Signature",
               Value("cbc:ID", fixed.reference) + Value("cbc:SignatureMethod", fixed.uri));
    GroupJoins(ss, SupplierOf(inv.supplier), "cac:AccountingSupplierParty",
               Under("cac:Party", SupplierFields(inv.supplier)));
    GroupJoins(ss, CustomerOf(inv.customer), "cac:AccountingCustomerParty",
               Under("cac:Party", CustomerFields(inv.customer)));
    if inv.standard || inv.delivery.Some? {
      GroupJoins(ss, DeliveryOf(inv), "cac:Delivery",
                 Value("cbc:ActualDeliveryDate", if inv.delivery.Some? then inv.delivery.value else inv.date));
    }
    GroupJoins(ss, PaymentOf(inv), "cac:PaymentMeans",
               Value("cbc:PaymentMeansCode", if inv.paymentMeans == "" then "10" else inv.paymentMeans)
               + When(inv.instructionNote != "", Value("cbc:InstructionNote", inv.instructionNote)));
    Joins(ss);
  }

  lemma MonetaryShows(inv: Invoice)
    ensures Groups(MonetaryOf(inv), "cac:LegalMonetaryTotal", AmountFields(inv))
  {
    hide AllShow, Money, Amount, OrDefault;
    var (ss, cur) := (MonetaryOf(inv).sections, inv.documentCurrency);
    AmountShows(ss, "cbc:LineExtensionAmount", cur, inv.lineExtension);
    AmountShows(ss, "cbc:TaxExclusiveAmount", cur, inv.taxExclusive);
    AmountShows(ss, "cbc:TaxInclusiveAmount", cur, inv.taxInclusive);
    AmountShows(ss, "cbc:AllowanceTotalAmount", cur, inv.allowanceTotal);
    AmountShows(ss, "cbc:PrepaidAmount", cur, "0.00");
    AmountShows(ss, "cbc:PayableAmount", cur, inv.taxInclusive);
    Joins(ss);
  }

  lemma CodedShows(ss: seq<Section>, list: string, value: string)
    requires Leaf("cbc:ID", Attribute("schemeID", "UN/ECE " + list) + Attribute("schemeAgencyID", "6"), value) in ss
    ensures AllShow(ss, Coded(list, value))
  {
    AttrIsWritten("schemeID", "UN/ECE " + list);
    AttrIsWritten("schemeAgencyID", "6");
    hide SomeShows, Attribute, Attr;
    LeafShows(ss, Leaf("cbc:ID", Attribute("schemeID", "UN/ECE " + list) + Attribute("schemeAgencyID", "6"), value));
  }

  lemma CategoryShows(category: string, percent: string)
    ensures Groups(CategoryOf(category, percent), "cac:TaxCategory", CategoryFields(category, percent))
  {
    assert "UN/ECE " + "5305" == "UN/ECE 5305" && "UN/ECE " + "5153" == "UN/ECE 5153";
    hide AllShow, Attribute, Raw, Coded, Under;
    var ss := CategoryOf(category, percent).sections;
    var scheme := [Leaf("cbc:ID", TAX_SCHEME, "VAT")];
    CodedShows(scheme, "5153", "VAT");
    GroupJoins(ss, Group("cac:TaxScheme", STEP, scheme), "cac:TaxScheme", Coded("5153", "VAT"));
    CodedShows(ss, "5305", category);
    RawShows(ss, "cbc:Percent", percent);
    Joins(ss);
  }

  lemma ReasonsShow(currency: string, amount: string)
    ensures AllShow(Reasons(OrDefault(currency, "SAR"), amount), ReasonFields(currency, amount))
  {
    hide AllShow, El, Money, Value, Amount, OrDefault;
    var ss := Reasons(OrDefault(currency, "SAR"), amount);
    ValueShows(ss, "cbc:ChargeIndicator", "false");
    ValueShows(ss, "cbc:AllowanceChargeReason", "discount");
    AmountShows(ss, "cbc:Amount", currency, amount);
    Joins(ss);
  }

  lemma AllowanceShows(currency: string, a: Allowance)
    ensures Groups(AllowanceOf(OrDefault(currency, "SAR"), a), "cac:AllowanceCharge", DiscountFields(currency, a))
  {
    var category := if a.category == "" then "S" else a.category;
    var cur := OrDefault(currency, "SAR");
    CategoryShows(category, a.percent);
    ReasonsShow(currency, a.amount);
    hide SomeShows, Under, Reasons, ReasonFields, CategoryOf, CategoryFields;
    var (reasons, ss) := (Reasons(cur, a.amount), AllowanceOf(cur, a).sections);
    assert ss == reasons + [CategoryOf(category, a.percent)];
    MoreShow(reasons, ss, ReasonFields(currency, a.amount));
    GroupJoins(ss, CategoryOf(category, a.percent), "cac:TaxCategory", CategoryFields(category, a.percent));
    hide AllShow;
    Joins(ss);
  }

  lemma SubtotalShows(currency: string, g: TextGroup)
    ensures Groups(SubtotalOf(OrDefault(currency, "SAR"), g), "cac:TaxSubtotal", GroupFields(currency, g))
  {
    CategoryShows(g.category, g.percent);
    hide AllShow, Under, Money, Amount, CategoryOf, CategoryFields, OrDefault;
    var ss := SubtotalOf(OrDefault(currency, "SAR"), g).sections;
    AmountShows(ss, "cbc:TaxableAmount", currency, g.taxable);
    AmountShows(ss, "cbc:TaxAmount", currency, g.tax);
    GroupJoins(ss, CategoryOf(g.category, g.percent), "cac:TaxCategory", CategoryFields(g.category, g.percent));
    Joins(ss);
  }

  lemma TotalsShow(inv: Invoice)
    ensures AllShow(TotalsOf(inv), TotalFields(inv))
  {
    MonetaryShows(inv);
    hide AllShow, Under, Money, Amount, OrDefault, AllowanceOf, SubtotalOf, MonetaryOf, AmountFields, DiscountFields;
    var ss := TotalsOf(inv);
    var summary := TaxTotalsOf(inv)[0];
    AmountShows(summary.sections, "cbc:TaxAmount", inv.documentCurrency, inv.totalTax);
    assert summary in ss;
    GroupJoins(ss, summary, "cac:TaxTotal", Amount("cbc:TaxAmount", inv.documentCurrency, inv.totalTax));
    assert MonetaryOf(inv) in ss;
    hide TotalsOf, TaxTotalsOf;
    GroupJoins(ss, MonetaryOf(inv), "cac:LegalMonetaryTotal", AmountFields(inv));
    if inv.discount.Some? {
      AllowanceShows(inv.documentCurrency, inv.discount.value);
      AllowanceIsThere(inv);
      GroupJoins(ss, AllowanceOf(inv.Currency(), inv.discount.value), "cac:AllowanceCharge",
                 DiscountFields(inv.documentCurrency, inv.discount.value));
    }
    Joins(ss);
  }

  lemma AllowanceIsThere(inv: Invoice)
    requires inv.discount.Some?
    ensures AllowanceOf(inv.Currency(), inv.discount.value) in TotalsOf(inv)
  {
    hide AllowanceOf, TaxTotalsOf, MonetaryOf;
    assert TotalsOf(inv)[0] == AllowanceOf(inv.Currency(), inv.discount.value);
  }

  lemma LineTaxShows(currency: string, l: TextLine)
    ensures Groups(LineTax(OrDefault(currency, "SAR"), l), "cac:TaxTotal", LineTaxFields(currency, l))
  {
    hide AllShow, Money, Amount, OrDefault;
    var ss := LineTax(OrDefault(currency, "SAR"), l).sections;
    AmountShows(ss, "cbc:TaxAmount", currency, l.tax);
    AmountShows(ss, "cbc:RoundingAmount", currency, l.gross);
    Joins(ss);
  }

  lemma LineCategoryShows(l: TextLine)
    ensures Groups(LineCategory(l), "cac:ClassifiedTaxCategory", LineCategoryFields(l))
  {
    hide AllShow, Under, El, Value, Raw;
    var ss := LineCategory(l).sections;
    OneValue("cac:TaxScheme", "cbc:ID", "VAT");
    GroupJoins(ss, Vat(), "cac:TaxScheme", Value("cbc:ID", "VAT"));
    ValueShows(ss, "cbc:ID", l.category);
    RawShows(ss, "cbc:Percent", l.percent);
    Joins(ss);
  }

  lemma LineItemShows(l: TextLine)
    ensures Groups(LineItem(l), "cac:Item",
                   Value("cbc:Name", l.name) + Under("cac:ClassifiedTaxCategory", LineCategoryFields(l)))
  {
    LineCategoryShows(l);
    hide AllShow, Under, El, Value, LineCategory, LineCategoryFields;
    var ss := LineItem(l).sections;
    GroupJoins(ss, LineCategory(l), "cac:ClassifiedTaxCategory", LineCategoryFields(l));
    ValueShows(ss, "cbc:Name", l.name);
    Joins(ss);
  }

  lemma LinePriceShows(currency: string, l: TextLine)
    ensures Groups(LinePrice(OrDefault(currency, "SAR"), l), "cac:Price", LinePriceFields(currency, l))
  {
    hide AllShow, Under, Money, Amount, OrDefault, Reasons, ReasonFields;
    var ss := LinePrice(OrDefault(currency, "SAR"), l).sections;
    AmountShows(ss, "cbc:PriceAmount", currency, l.price);
    if l.discount.Some? {
      ReasonsShow(currency, l.discount.value);
      var reasons := Reasons(OrDefault(currency, "SAR"), l.discount.value);
      GroupJoins(ss, Group("cac:AllowanceCharge", STEP, reasons), "cac:AllowanceCharge",
                 ReasonFields(currency, l.discount.value));
    }
    Joins(ss);
  }

  lemma LineShows(currency: string, l: TextLine, number: nat)
    ensures Groups(LineOf(OrDefault(currency, "SAR"), l, number), "cac:InvoiceLine", LineFields(currency, l, number))
  {
    LineTaxShows(currency, l);
    LineItemShows(l);
    LinePriceShows(currency, l);
    var s := LineOf(OrDefault(currency, "SAR"), l, number);
    var ss := s.sections;
    LineIdShows(ss, l, number);
    QuantityShows(ss, l);
    hide AllShow, Under, Money, Amount, With, El, Value, Attribute, LineTax, LineItem, LinePrice, LineTaxFields,
      LineCategoryFields, LinePriceFields, DecimalNat, Groups, OrDefault;
    AmountShows(ss, "cbc:LineExtensionAmount", currency, l.net);
    GroupJoins(ss, LineTax(OrDefault(currency, "SAR"), l), "cac:TaxTotal", LineTaxFields(currency, l));
    GroupJoins(ss, LineItem(l), "cac:Item",
               Value("cbc:Name", l.name) + Under("cac:ClassifiedTaxCategory", LineCategoryFields(l)));
    GroupJoins(ss, LinePrice(OrDefault(currency, "SAR"), l), "cac:Price", LinePriceFields(currency, l));
    Joins(ss);
    IsGroup(s, "cac:InvoiceLine", LineFields(currency, l, number));
  }

  lemma LineIdShows(ss: seq<Section>, l: TextLine, number: nat)
    requires El("cbc:ID", OrDefault(l.id, DecimalNat(number))) in ss
    ensures AllShow(ss, Value("cbc:ID", if l.id == "" then DecimalNat(number) else l.id))
  {
    hide AllShow, El, Value, DecimalNat;
    ValueShows(ss, "cbc:ID", OrDefault(l.id, DecimalNat(number)));
  }

  lemma QuantityShows(ss: seq<Section>, l: TextLine)
    requires Leaf("cbc:InvoicedQuantity", Attribute("unitCode", OrDefault(l.unitCode, "PCE")), l.quantity) in ss
    ensures AllShow(ss, With("cbc:InvoicedQuantity", "unitCode", if l.unitCode == "" then "PCE" else l.unitCode,
                             l.quantity))
  {
    hide AllShow, With, Attribute;
    WithShows(ss, "cbc:InvoicedQuantity", "unitCode", OrDefault(l.unitCode, "PCE"), l.quantity);
  }

  lemma IsGroup(s: Section, name: string, entries: seq<Entry>)
    requires s.Group? && s.name == name && AllShow(s.sections, entries)
    ensures Groups(s, name, entries)
  {
  }

  // ---------------------------------------------------------------- where the sections stand in the tree

  /** The elements of some sections are among these. */
  ghost predicate LaidAmong(ss: seq<Section>, es: seq<Element>) {
    exists indent, end :: Stand(ss, indent, end, es)
  }

  ghost predicate Stand(ss: seq<Section>, indent: string, end: string, es: seq<Element>) {
    forall e | e in LaidAll(ss, indent, end) :: e in es
  }

  lemma Among(ss: seq<Section>, indent: string, end: string, es: seq<Element>)
    requires forall e | e in LaidAll(ss, indent, end) :: e in es
    ensures LaidAmong(ss, es)
  {
    assert Stand(ss, indent, end, es);
  }

  /** What the sections show, their elements hold. */
  lemma ShownIsHeld(ss: seq<Section>, es: seq<Element>, entries: seq<Entry>)
    requires LaidAmong(ss, es) && AllShow(ss, entries)
    ensures AllHold(es, entries)
  {
    var indent, end :| Stand(ss, indent, end, es);
    hide LaidAll, Shows, Holds;
    forall f | f in entries
      ensures Holds(es, f.path, f.text)
    {
      LaidHolds(ss, indent, end, f.path, f.text);
      MoreHold(LaidAll(ss, indent, end), es, f.path, f.text);
    }
  }

  /** A group has its own element, with its sections below it. */
  lemma GroupElement(ss: seq<Section>, es: seq<Element>, s: Section) returns (e: Element)
    requires LaidAmong(ss, es) && s in ss && s.Group?
    ensures e in es && e.name == s.name && LaidAmong(s.sections, e.children)
  {
    var indent, end :| Stand(ss, indent, end, es);
    var i :| 0 <= i < |ss| && ss[i] == s;
    var tail := LaidAt(ss, indent, end, i);
    hide LaidAll;
    e := LaidAll(ss, indent, end)[i];
    assert e.children == LaidAll(s.sections, indent + s.step, "\n" + indent);
    Among(s.sections, indent + s.step, "\n" + indent, e.children);
  }

  lemma GroupIsHeld(ss: seq<Section>, es: seq<Element>, s: Section, name: string, entries: seq<Entry>)
    requires LaidAmong(ss, es) && s in ss && Groups(s, name, entries)
    ensures OneHolds(es, name, entries)
  {
    hide LaidAmong, AllShow, AllHold;
    var e := GroupElement(ss, es, s);
    ShownIsHeld(s.sections, e.children, entries);
  }

  lemma LineIsHeld(inv: Invoice, ss: seq<Section>, es: seq<Element>, i: nat)
    requires LaidAmong(ss, es) && i < |inv.lines| && forall s | s in LinesOf(inv) :: s in ss
    ensures OneHolds(es, "cac:InvoiceLine", LineFields(inv.documentCurrency, inv.lines[i], i + 1))
  {
    hide LaidAmong, Groups, LineFields, OneHolds, OrDefault, LineOf;
    LineShows(inv.documentCurrency, inv.lines[i], i + 1);
    assert LinesOf(inv)[i] in LinesOf(inv);
    GroupIsHeld(ss, es, LineOf(inv.Currency(), inv.lines[i], i + 1), "cac:InvoiceLine",
                LineFields(inv.documentCurrency, inv.lines[i], i + 1));
  }

  /** A tax group stands in one subtotal of the second tax total. */
  ghost predicate GroupReads(es: seq<Element>, currency: string, g: TextGroup) {
    exists e | e in es :: e.name == "cac:TaxTotal" && OneHolds(e.children, "cac:TaxSubtotal", GroupFields(currency, g))
  }

  lemma SubtotalIsHeld(inv: Invoice, ss: seq<Section>, es: seq<Element>, i: nat)
    requires LaidAmong(ss, es) && i < |inv.groups| && TaxTotalsOf(inv)[1] in ss
    ensures GroupReads(es, inv.documentCurrency, inv.groups[i])
  {
    hide LaidAmong, Groups, GroupFields, OneHolds, OrDefault, SubtotalOf, Money;
    var (total, sub) := (TaxTotalsOf(inv)[1], SubtotalOf(inv.Currency(), inv.groups[i]));
    SubtotalShows(inv.documentCurrency, inv.groups[i]);
    assert total.sections[i + 1] == sub && sub in total.sections;
    var e := GroupElement(ss, es, total);
    GroupIsHeld(total.sections, e.children, sub, "cac:TaxSubtotal", GroupFields(inv.documentCurrency, inv.groups[i]));
  }

  /** Everything a reader finds below the root. */
  ghost predicate InvoiceReads(es: seq<Element>, fixed: Fixed, inv: Invoice, qr: string) {
    && AllHold(es, HeaderFields(inv)) && AllHold(es, PartyFields(inv) + PaymentFields(inv) + SignatureFields(fixed))
    && AllHold(es, TotalFields(inv))
    && OneHolds(es, REFERENCE, CounterFields(inv)) && OneHolds(es, REFERENCE, PreviousFields(inv))
    && OneHolds(es, REFERENCE, Raw("cbc:ID", "QR") + Under("cac:Attachment", Binary(qr)))
    && (forall i | 0 <= i < |inv.groups| :: GroupReads(es, inv.documentCurrency, inv.groups[i]))
    && (forall i | 0 <= i < |inv.lines| :: OneHolds(es, "cac:InvoiceLine",
                                                    LineFields(inv.documentCurrency, inv.lines[i], i + 1)))
  }

  lemma FrontIsHeld(inv: Invoice, es: seq<Element>)
    requires forall e | e in Before(inv) :: e in es
    ensures AllHold(es, HeaderFields(inv))
    ensures OneHolds(es, REFERENCE, CounterFields(inv)) && OneHolds(es, REFERENCE, PreviousFields(inv))
  {
    var ss := HeaderOf(inv) + [CounterOf(inv), PreviousOf(inv)];
    Among(ss, STEP, "\n    ", es);
    hide LaidAmong, LaidAll, HeaderOf, CounterOf, PreviousOf, Groups, AllHold, OneHolds, HeaderFields, CounterFields,
      PreviousFields, SomeShows;
    HeaderShows(inv);
    ReferencesShow(inv);
    MoreShow(HeaderOf(inv), ss, HeaderFields(inv));
    ShownIsHeld(ss, es, HeaderFields(inv));
    GroupIsHeld(ss, es, CounterOf(inv), REFERENCE, CounterFields(inv));
    GroupIsHeld(ss, es, PreviousOf(inv), REFERENCE, PreviousFields(inv));
  }

  lemma MoreShow(ss: seq<Section>, more: seq<Section>, entries: seq<Entry>)
    requires AllShow(ss, entries) && forall s | s in ss :: s in more
    ensures AllShow(more, entries)
  {
    hide Shows;
  }

  lemma PartiesAreHeld(fixed: Fixed, inv: Invoice, ss: seq<Section>, es: seq<Element>)
    requires LaidAmong(ss, es) && forall s | s in PartiesOf(fixed, inv) :: s in ss
    ensures AllHold(es, PartyFields(inv) + PaymentFields(inv) + SignatureFields(fixed))
  {
    hide LaidAmong, PartiesOf, AllHold, AllShow, PartyFields, PaymentFields;
    PartiesShow(fixed, inv);
    MoreShow(PartiesOf(fixed, inv), ss, PartyFields(inv) + PaymentFields(inv) + SignatureFields(fixed));
    ShownIsHeld(ss, es, PartyFields(inv) + PaymentFields(inv) + SignatureFields(fixed));
  }

  lemma TotalsAreHeld(inv: Invoice, ss: seq<Section>, es: seq<Element>)
    requires LaidAmong(ss, es) && forall s | s in TotalsOf(inv) :: s in ss
    ensures AllHold(es, TotalFields(inv))
    ensures forall i | 0 <= i < |inv.groups| :: GroupReads(es, inv.documentCurrency, inv.groups[i])
  {
    hide LaidAmong, TotalsOf, TaxTotalsOf, AllHold, AllShow, TotalFields, GroupReads;
    TotalsShow(inv);
    MoreShow(TotalsOf(inv), ss, TotalFields(inv));
    ShownIsHeld(ss, es, TotalFields(inv));
    TaxTotalIsThere(inv);
    forall i | 0 <= i < |inv.groups|
      ensures GroupReads(es, inv.documentCurrency, inv.groups[i])
    {
      SubtotalIsHeld(inv, ss, es, i);
    }
  }

  lemma BackIsHeld(fixed: Fixed, inv: Invoice, es: seq<Element>)
    requires forall e | e in After(fixed, inv) :: e in es
    ensures AllHold(es, PartyFields(inv) + PaymentFields(inv) + SignatureFields(fixed)) && AllHold(es, TotalFields(inv))
    ensures forall i | 0 <= i < |inv.groups| :: GroupReads(es, inv.documentCurrency, inv.groups[i])
    ensures forall i | 0 <= i < |inv.lines| :: OneHolds(es, "cac:InvoiceLine",
                                                        LineFields(inv.documentCurrency, inv.lines[i], i + 1))
  {
    hide LaidAmong, LaidAll, PartiesOf, TotalsOf, LinesOf, AllHold, OneHolds, PartyFields, PaymentFields, TotalFields,
      GroupReads, LineFields;
    var ss := PartiesOf(fixed, inv) + TotalsOf(inv) + LinesOf(inv);
    Among(ss, STEP, "\n", es);
    PartiesAreHeld(fixed, inv, ss, es);
    TotalsAreHeld(inv, ss, es);
    forall i | 0 <= i < |inv.lines|
      ensures OneHolds(es, "cac:InvoiceLine", LineFields(inv.documentCurrency, inv.lines[i], i + 1))
    {
      LineIsHeld(inv, ss, es, i);
    }
  }

  lemma TaxTotalIsThere(inv: Invoice)
    ensures TaxTotalsOf(inv)[1] in TotalsOf(inv)
  {
    hide AllowanceOf, MonetaryOf, SubtotalOf, Money;
    assert TaxTotalsOf(inv)[1] in TaxTotalsOf(inv);
    hide TaxTotalsOf;
  }

  lemma QrIsHeld(qr: string, es: seq<Element>)
    requires QrReference(qr) in es
    ensures OneHolds(es, REFERENCE,
                     Raw("cbc:ID", "QR") + Under("cac:Attachment", Binary(qr)))
  {
    var e := QrReference(qr);
    var attachment := e.children[1];
    PlainAttribute();
    hide Attr, Escape;
    assert e.children[0] in e.children && attachment in e.children && attachment.children[0] in attachment.children;
    assert Holds(attachment.children, Binary(qr)[0].path, qr);
    var entries := Raw("cbc:ID", "QR") + Under("cac:Attachment", Binary(qr));
    assert entries == [Entry(Field("cbc:ID", ""), "QR"), Entry(In("cac:Attachment", Binary(qr)[0].path), qr)];
  }

  /** When there is no text: an invoice without number, identity, lines, supplier VAT number or previous hash, and a
      standard one without a customer VAT number. */
  lemma UnwrittenInvoices(fixed: Fixed, inv: Invoice)
    ensures ToXML(fixed, inv).None? <==>
      || inv.id == "" || inv.uuid == "" || |inv.lines| == 0 || inv.supplier.vat == "" || inv.previousHash == ""
      || (inv.standard && inv.customer.vat == "")
    ensures ToXML(fixed, inv).Some? ==>
      ToXML(fixed, inv).value == Document(fixed, None, Before(inv), "", After(fixed, inv))
  {
    hide Document, Before, After;
  }

  /** Main result on the fields: whoever parses the text of an invoice, unsigned or signed, finds every field under its
      name: number, identity, dates, counter and previous hash, each party under its own role, the totals, each tax
      group in one subtotal, each line in one element, and the QR code. Escaped values are read back by Unescape. */
  lemma FieldsAreRead(fixed: Fixed, signature: Option<Signature>, inv: Invoice, qr: string, e: Element)
    requires fixed.Clean() && inv.RawClean() && NoMarkup(qr) && (signature.Some? ==> signature.value.Clean())
    requires Parses(Document(fixed, signature, Before(inv), qr, After(fixed, inv)), e)
    ensures InvoiceReads(e.children, fixed, inv, qr)
  {
    var root := Root(fixed, signature, Before(inv), qr, After(fixed, inv));
    hide Fixed.Clean, Invoice.RawClean, Signature.Clean, NoMarkup, Before, After, Document, FlattenAll, Proper, Clean,
      NoQr, NoBinary, HasQrId, Parses, Invoice.HasQrLine, AllHold, OneHolds, GroupReads, HeaderFields, PartyFields,
      PaymentFields, TotalFields, LineFields, CounterFields, PreviousFields, Raw, Under, QrReference, Extensions;
    SectionsAreClean(fixed, inv);
    RootIsClean(fixed, signature, Before(inv), qr, After(fixed, inv));
    ParsesOnce(Document(fixed, signature, Before(inv), qr, After(fixed, inv)), e, root);
    FrontIsHeld(inv, e.children);
    BackIsHeld(fixed, inv, e.children);
    QrIsHeld(qr, e.children);
  }

  // ---------------------------------------------------------------- what is hashed

  lemma RemovedIsOneLess(a: Around, p: Element -> bool)
    requires exists i :: 0 <= i < |a.after| && p(a.after[i])
    ensures |Removed(a, p).before| + |Removed(a, p).after| == |a.before| + |a.after| - 1
  {
  }

  lemma SignatureIsFirst(fixed: Fixed, inv: Invoice)
    ensures PartiesOf(fixed, inv)[0].name == "cac:Signature" && PartiesOf(fixed, inv) != []
  {
    hide SupplierOf, CustomerOf, DeliveryOf, PaymentOf;
  }

  lemma SignatureName()
    ensures LocalOf("cac:Signature") == "Signature" && PrefixOf("cac:Signature") == "cac"
  {
    assert "cac:Signature" == "cac" + ":" + "Signature";
    hide LocalOf, PrefixOf, ColonAt;
    Qualified("cac", "Signature");
  }

  lemma SignatureIsBehind(spaces: map<string, string>, fixed: Fixed, inv: Invoice)
    requires "cac" in spaces && spaces["cac"] == NS_CAC
    ensures |After(fixed, inv)| > 0 && IsChild(spaces, After(fixed, inv)[0], NS_CAC, "Signature")
  {
    SignatureIsFirst(fixed, inv);
    SignatureName();
    hide PartiesOf, TotalsOf, LinesOf, LaidAll, LocalOf, PrefixOf;
    var ss := PartiesOf(fixed, inv) + TotalsOf(inv) + LinesOf(inv);
    var tail := LaidAt(ss, STEP, "\n", 0);
  }

  /** What is hashed of an invoice, unsigned or signed: all of its sections but three, the extensions, the signature
      reference and the QR reference. */
  lemma ThreeAreStripped(spaces: map<string, string>, fixed: Fixed, signature: Option<Signature>, inv: Invoice,
                         qr: string, e: Element)
    requires "ext" in spaces && spaces["ext"] == NS_EXT && "cac" in spaces && spaces["cac"] == NS_CAC
    requires fixed.Clean() && inv.RawClean() && NoMarkup(qr) && (signature.Some? ==> signature.value.Clean())
    requires Parses(Document(fixed, signature, Before(inv), qr, After(fixed, inv)), e)
    ensures |Stripped(spaces, e).children| == |e.children| - 3
  {
    hide Fixed.Clean, Invoice.RawClean, Signature.Clean, NoMarkup, Before, After, Document, FlattenAll, Proper, Clean,
      NoBinary, HasQrId, Parses, Invoice.HasQrLine, QrReference, Extensions, NoQr, Stripped, IsChild, Removed;
    var (before, after) := (Before(inv), After(fixed, inv));
    SectionsAreClean(fixed, inv);
    RootIsClean(fixed, signature, before, qr, after);
    ParsesOnce(Document(fixed, signature, before, qr, after), e, Root(fixed, signature, before, qr, after));
    StrippedDocument(spaces, fixed, signature, before, qr, after);
    SignatureIsBehind(spaces, fixed, inv);
    RemovedIsOneLess(Around("\n    ", before, "\n    ", after),
                     (c: Element) => IsChild(spaces, c, NS_CAC, "Signature"));
  }
}
