/**
 * The UBL 2.1 / CIUS-RO invoice document builder (`XMLBuilder`).
 *
 * The element tree is a value: an element has a tag, optional text, an
 * attribute map and an ordered sequence of children.  `add_element`
 * appends one new child to its parent; the builder grows the `Invoice`
 * root one child at a time.  `InvoiceSpec` is the declarative shape of the
 * finished document, and the lemmas at the end state the schema-order,
 * storno, currency and line-numbering properties about it.
 */
module InvoiceXml {
  import opened Wrappers
  import opened Text

  /** An ElementTree element. */
  datatype Elem = Elem(tag: string, text: Option<string>, attrs: map<string, string>, children: seq<Elem>)

  /**
   * The fields the builder reads from a seller or a buyer.  A missing
   * (None) value is written as the empty string: both are falsy and give
   * an element without text.
   */
  datatype Party = Party(
    name: string, address: string, city: string, postalCode: string, county: string,
    country: string, cui: string, iban: string, email: string)

  /** One invoice line; amounts are integers (for instance minor units). */
  datatype Item = Item(name: string, quantity: int, price: int, vat: int, netTotal: int)

  /**
   * The fields the builder reads from an invoice.  `stornoId` is "" when
   * the invoice is not a storno (credit note).
   */
  datatype Invoice = Invoice(
    invoiceNumber: string, date: string, dueDate: string, currency: string,
    netTotal: int, totalVat: int, vat: int, total: int, items: seq<Item>,
    stornoId: string, stornoDate: string, seller: Party, buyer: Party)

  const CiusRoCustomization := "urn:cen.eu:en16931:2017#compliant#urn:efactura.mfinante.ro:CIUS-RO:1.0.1"
  const InvoiceNamespace := "urn:oasis:names:specification:ubl:schema:xsd:Invoice-2"

  /** Namespace declarations and schema location of the root element. */
  const RootAttrs: map<string, string> := map[
    "xmlns" := InvoiceNamespace,
    "xmlns:cbc" := "urn:oasis:names:specification:ubl:schema:xsd:CommonBasicComponents-2",
    "xmlns:cac" := "urn:oasis:names:specification:ubl:schema:xsd:CommonAggregateComponents-2",
    "xmlns:ns4" := "urn:oasis:names:specification:ubl:schema:xsd:CommonExtensionComponents-2",
    "xmlns:xsi" := "http://www.w3.org/2001/XMLSchema-instance",
    "xsi:schemaLocation" := InvoiceNamespace + " http://docs.oasis-open.org/ubl/os-UBL-2.1/xsd/maindoc/UBL-Invoice-2.1.xsd"
  ]

  /** Every monetary amount is tagged with this attribute map. */
  const InRon: map<string, string> := map["currencyID" := "RON"]

  /** The tags of the elements that hold monetary amounts. */
  const MonetaryTags: set<string> := {
    "cbc:TaxAmount", "cbc:TaxableAmount", "cbc:LineExtensionAmount", "cbc:TaxExclusiveAmount",
    "cbc:TaxInclusiveAmount", "cbc:PayableAmount", "cbc:PriceAmount"
  }

  /** Python truthiness of an optional string: None and "" are false. */
  predicate Truthy(text: Option<string>) { text.Some? && text.value != "" }

  /** A storno invoice is one whose `storno_id` is truthy. */
  predicate IsStorno(inv: Invoice) { inv.stornoId != "" }

  // ---------------------------------------------------------------------
  // Tree operations
  // ---------------------------------------------------------------------

  /**
   * The element `ET.SubElement` creates: the given tag, the attributes
   * (empty when none are given), no children, and the text only when it is
   * truthy.
   */
  function NewElement(tag: string, text: Option<string>, attrib: Option<map<string, string>>): (e: Elem)
    ensures e.tag == tag && e.children == []
    ensures e.attrs == (if attrib.None? then map[] else attrib.value)
    ensures e.text.Some? <==> Truthy(text)
    ensures e.text.Some? ==> e.text == text
  {
    Elem(tag, if Truthy(text) then text else None, if attrib.None? then map[] else attrib.value, [])
  }

  /** Appends `child` as the last child of `parent`; nothing else changes. */
  function Attach(parent: Elem, child: Elem): (r: Elem)
    ensures r.tag == parent.tag && r.text == parent.text && r.attrs == parent.attrs
    ensures |r.children| == |parent.children| + 1
    ensures r.children[..|parent.children|] == parent.children
    ensures r.children[|parent.children|] == child
  {
    parent.(children := parent.children + [child])
  }

  /** `add_element`: the parent with exactly one new child appended. */
  function AddElement(parent: Elem, tag: string, text: Option<string>, attrib: Option<map<string, string>>): (r: Elem)
    ensures r.tag == parent.tag && r.text == parent.text && r.attrs == parent.attrs
    ensures |r.children| == |parent.children| + 1
    ensures r.children[..|parent.children|] == parent.children
    ensures var c := r.children[|parent.children|];
      c.tag == tag && c.children == [] &&
      c.attrs == (if attrib.None? then map[] else attrib.value) &&
      (c.text.Some? <==> Truthy(text)) && (c.text.Some? ==> c.text == text)
  {
    Attach(parent, NewElement(tag, text, attrib))
  }

  // ---------------------------------------------------------------------
  // The shape of the finished document
  // ---------------------------------------------------------------------

  /** An element holding text only. */
  function Leaf(tag: string, text: string): Elem { NewElement(tag, Some(text), None) }

  /** A monetary amount, always in RON. */
  function Amount(tag: string, value: int): Elem { NewElement(tag, Some(IntToString(value)), Some(InRon)) }

  /** An element holding children only. */
  function Node(tag: string, children: seq<Elem>): Elem { Elem(tag, None, map[], children) }

  function PostalAddressSpec(p: Party): Elem {
    Node("cac:PostalAddress", [
      Leaf("cbc:StreetName", p.address),
      Leaf("cbc:CityName", p.city),
      Leaf("cbc:PostalZone", p.postalCode),
      Leaf("cbc:CountrySubentity", p.county),
      Node("cac:Country", [Leaf("cbc:IdentificationCode", p.country)])])
  }

  function PartyEntitySpec(p: Party): Elem {
    Node("cac:Party", [
      Node("cac:PartyName", [Leaf("cbc:Name", p.name)]),
      PostalAddressSpec(p),
      Node("cac:PartyTaxScheme", [
        Leaf("cbc:CompanyID", p.cui),
        Node("cac:TaxScheme", [Leaf("cbc:ID", "VAT")])]),
      Node("cac:PartyLegalEntity", [
        Leaf("cbc:RegistrationName", p.name),
        Leaf("cbc:CompanyID", p.cui)]),
      Node("cac:Contact", [Leaf("cbc:ElectronicMail", p.email)])])
  }

  /** A party block: the wrapper tag around one `cac:Party`. */
  function PartySpec(partyTag: string, p: Party): Elem {
    Node(partyTag, [PartyEntitySpec(p)])
  }

  /** The seven fixed header elements. */
  function HeaderSpec(inv: Invoice): seq<Elem> {
    [ Leaf("cbc:UBLVersionID", "2.1"),
      Leaf("cbc:CustomizationID", CiusRoCustomization),
      Leaf("cbc:ID", inv.invoiceNumber),
      Leaf("cbc:IssueDate", inv.date),
      Leaf("cbc:DueDate", inv.dueDate),
      Leaf("cbc:InvoiceTypeCode", "380"),
      Leaf("cbc:DocumentCurrencyCode", inv.currency) ]
  }

  /** The optional tax-currency element: present when the currency is not RON. */
  function TaxCurrencySpec(inv: Invoice): seq<Elem> {
    if inv.currency != "RON" then [Leaf("cbc:TaxCurrencyCode", "RON")] else []
  }

  /** The optional back-link of a storno invoice to the invoice it cancels. */
  function BillingReferenceSpec(inv: Invoice): seq<Elem> {
    if IsStorno(inv) then
      [Node("cac:BillingReference", [
        Node("cac:InvoiceDocumentReference", [
          Leaf("cbc:ID", inv.stornoId),
          Leaf("cbc:IssueDate", inv.stornoDate)])])]
    else []
  }

  function PaymentMeansSpec(inv: Invoice): Elem {
    Node("cac:PaymentMeans", [
      Leaf("cbc:PaymentMeansCode", "31"),
      Node("cac:PayeeFinancialAccount", [Leaf("cbc:ID", inv.seller.iban)])])
  }

  function TaxTotalSpec(inv: Invoice): Elem {
    Node("cac:TaxTotal", [
      Amount("cbc:TaxAmount", inv.totalVat),
      Node("cac:TaxSubtotal", [
        Amount("cbc:TaxableAmount", inv.netTotal),
        Amount("cbc:TaxAmount", inv.totalVat),
        Node("cac:TaxCategory", [
          Leaf("cbc:ID", "S"),
          Leaf("cbc:Percent", IntToString(inv.vat)),
          Node("cac:TaxScheme", [Leaf("cbc:ID", "VAT")])])])])
  }

  function MonetaryTotalSpec(inv: Invoice): Elem {
    Node("cac:LegalMonetaryTotal", [
      Amount("cbc:LineExtensionAmount", inv.netTotal),
      Amount("cbc:TaxExclusiveAmount", inv.netTotal),
      Amount("cbc:TaxInclusiveAmount", inv.total),
      Amount("cbc:PayableAmount", inv.total)])
  }

  /** The line amount: the item's net total, negated on a storno invoice. */
  function LineAmount(item: Item, storno: bool): int {
    if storno then -item.netTotal else item.netTotal
  }

  /** The `Item` block of a line: the name and the standard-rated VAT category. */
  function LineItemSpec(item: Item): Elem {
    Node("cac:Item", [
      Leaf("cbc:Name", item.name),
      Node("cac:ClassifiedTaxCategory", [
        Leaf("cbc:ID", "S"),
        Leaf("cbc:Percent", IntToString(item.vat)),
        Node("cac:TaxScheme", [Leaf("cbc:ID", "VAT")])])])
  }

  /** Invoice line number `n` (1-based). */
  function LineSpec(n: nat, item: Item, storno: bool): Elem {
    Node("cac:InvoiceLine", [
      Leaf("cbc:ID", NatToString(n)),
      NewElement("cbc:InvoicedQuantity", Some(IntToString(item.quantity)), Some(map["unitCode" := "C61"])),
      Amount("cbc:LineExtensionAmount", LineAmount(item, storno)),
      LineItemSpec(item),
      Node("cac:Price", [Amount("cbc:PriceAmount", item.price)])])
  }

  /** The `enumerate(items, 1)` loop's lines: one per item, numbered from 1. */
  function LinesOf(items: seq<Item>, storno: bool): (ls: seq<Elem>)
    ensures |ls| == |items|
    ensures forall k :: 0 <= k < |ls| ==>
      ls[k].tag == "cac:InvoiceLine" && |ls[k].children| == 5 && ls[k].children[0] == Leaf("cbc:ID", NatToString(k + 1))
  {
    seq(|items|, k requires 0 <= k < |items| => LineSpec(k + 1, items[k], storno))
  }

  function LinesSpec(inv: Invoice): seq<Elem> {
    LinesOf(inv.items, IsStorno(inv))
  }

  /** The header with its two optional blocks. */
  function OpeningSpec(inv: Invoice): seq<Elem> {
    HeaderSpec(inv) + TaxCurrencySpec(inv) + BillingReferenceSpec(inv)
  }

  /** Everything before the invoice lines. */
  function PrefixSpec(inv: Invoice): seq<Elem> {
    OpeningSpec(inv) + BlocksSpec(inv)
  }

  /** The two parties, the payment means and the two totals, in document order. */
  function BlocksSpec(inv: Invoice): seq<Elem> {
    [ PartySpec("cac:AccountingSupplierParty", inv.seller),
      PartySpec("cac:AccountingCustomerParty", inv.buyer),
      PaymentMeansSpec(inv),
      TaxTotalSpec(inv),
      MonetaryTotalSpec(inv) ]
  }

  /** The whole `Invoice` document. */
  function InvoiceSpec(inv: Invoice): (e: Elem)
    ensures e.tag == "Invoice" && e.text == None && e.attrs == RootAttrs
    ensures |e.children| >= |inv.items| && e.children[|e.children| - |inv.items|..] == LinesOf(inv.items, IsStorno(inv))
  {
    Elem("Invoice", None, RootAttrs, PrefixSpec(inv) + LinesSpec(inv))
  }

  // ---------------------------------------------------------------------
  // The builder
  // ---------------------------------------------------------------------

  method NewPostalAddress(entity: Party) returns (postalAddress: Elem)
    ensures postalAddress == PostalAddressSpec(entity)
  {
    postalAddress := NewElement("cac:PostalAddress", None, None);
    postalAddress := AddElement(postalAddress, "cbc:StreetName", Some(entity.address), None);
    postalAddress := AddElement(postalAddress, "cbc:CityName", Some(entity.city), None);
    postalAddress := AddElement(postalAddress, "cbc:PostalZone", Some(entity.postalCode), None);
    postalAddress := AddElement(postalAddress, "cbc:CountrySubentity", Some(entity.county), None);
    var country := NewElement("cac:Country", None, None);
    country := AddElement(country, "cbc:IdentificationCode", Some(entity.country), None);
    postalAddress := Attach(postalAddress, country);
  }

  method NewPartyEntity(entity: Party) returns (partyEntity: Elem)
    ensures partyEntity == PartyEntitySpec(entity)
  {
    var partyName := NewElement("cac:PartyName", None, None);
    partyName := AddElement(partyName, "cbc:Name", Some(entity.name), None);
    assert partyName == PartyEntitySpec(entity).children[0];

    var postalAddress := NewPostalAddress(entity);

    var partyTaxScheme := NewElement("cac:PartyTaxScheme", None, None);
    partyTaxScheme := AddElement(partyTaxScheme, "cbc:CompanyID", Some(entity.cui), None);
    var taxScheme := NewElement("cac:TaxScheme", None, None);
    taxScheme := AddElement(taxScheme, "cbc:ID", Some("VAT"), None);
    partyTaxScheme := Attach(partyTaxScheme, taxScheme);
    assert partyTaxScheme == PartyEntitySpec(entity).children[2];

    var partyLegalEntity := NewElement("cac:PartyLegalEntity", None, None);
    partyLegalEntity := AddElement(partyLegalEntity, "cbc:RegistrationName", Some(entity.name), None);
    partyLegalEntity := AddElement(partyLegalEntity, "cbc:CompanyID", Some(entity.cui), None);
    assert partyLegalEntity == PartyEntitySpec(entity).children[3];

    var contact := NewElement("cac:Contact", None, None);
    contact := AddElement(contact, "cbc:ElectronicMail", Some(entity.email), None);
    assert contact == PartyEntitySpec(entity).children[4];

    partyEntity := NewElement("cac:Party", None, None);
    partyEntity := Attach(partyEntity, partyName);
    partyEntity := Attach(partyEntity, postalAddress);
    partyEntity := Attach(partyEntity, partyTaxScheme);
    partyEntity := Attach(partyEntity, partyLegalEntity);
    partyEntity := Attach(partyEntity, contact);
  }

  /** `add_party`: appends one party block to `invoice`. */
  method AddParty(invoice: Elem, partyTag: string, entity: Party) returns (r: Elem)
    ensures r == Attach(invoice, PartySpec(partyTag, entity))
  {
    var partyEntity := NewPartyEntity(entity);
    var party := NewElement(partyTag, None, None);
    party := Attach(party, partyEntity);
    r := Attach(invoice, party);
  }

  /** The `Item` block of an invoice line: name and standard VAT category. */
  method NewLineItem(item: Item) returns (lineItem: Elem)
    ensures lineItem == LineItemSpec(item)
  {
    var classifiedTaxCategory := NewElement("cac:ClassifiedTaxCategory", None, None);
    classifiedTaxCategory := AddElement(classifiedTaxCategory, "cbc:ID", Some("S"), None);
    classifiedTaxCategory := AddElement(classifiedTaxCategory, "cbc:Percent", Some(IntToString(item.vat)), None);
    var taxScheme := NewElement("cac:TaxScheme", None, None);
    taxScheme := AddElement(taxScheme, "cbc:ID", Some("VAT"), None);
    classifiedTaxCategory := Attach(classifiedTaxCategory, taxScheme);
    assert classifiedTaxCategory == LineItemSpec(item).children[1];
    lineItem := NewElement("cac:Item", None, None);
    lineItem := AddElement(lineItem, "cbc:Name", Some(item.name), None);
    lineItem := Attach(lineItem, classifiedTaxCategory);
  }

  /** One iteration of the line loop: the `InvoiceLine` element for item number `n`. */
  method NewInvoiceLine(n: nat, item: Item, storno: bool) returns (invoiceLine: Elem)
    ensures invoiceLine == LineSpec(n, item, storno)
  {
    invoiceLine := NewElement("cac:InvoiceLine", None, None);
    invoiceLine := AddElement(invoiceLine, "cbc:ID", Some(NatToString(n)), None);
    invoiceLine := AddElement(invoiceLine, "cbc:InvoicedQuantity", Some(IntToString(item.quantity)), Some(map["unitCode" := "C61"]));
    invoiceLine := AddElement(invoiceLine, "cbc:LineExtensionAmount",
      Some(IntToString(if !storno then item.netTotal else -item.netTotal)), Some(InRon));
    var lineItem := NewLineItem(item);
    invoiceLine := Attach(invoiceLine, lineItem);
    var price := NewElement("cac:Price", None, None);
    price := AddElement(price, "cbc:PriceAmount", Some(IntToString(item.price)), Some(InRon));
    invoiceLine := Attach(invoiceLine, price);
  }

  /** The `PaymentMeans` block: credit transfer (code 31) to the seller's IBAN. */
  method NewPaymentMeans(inv: Invoice) returns (paymentMeans: Elem)
    ensures paymentMeans == PaymentMeansSpec(inv)
  {
    var payeeFinancialAccount := NewElement("cac:PayeeFinancialAccount", None, None);
    payeeFinancialAccount := AddElement(payeeFinancialAccount, "cbc:ID", Some(inv.seller.iban), None);
    paymentMeans := NewElement("cac:PaymentMeans", None, None);
    paymentMeans := AddElement(paymentMeans, "cbc:PaymentMeansCode", Some("31"), None);
    paymentMeans := Attach(paymentMeans, payeeFinancialAccount);
  }

  /** The `TaxTotal` block: VAT total, taxable amount and the standard VAT category, in RON. */
  method NewTaxTotal(inv: Invoice) returns (taxTotal: Elem)
    ensures taxTotal == TaxTotalSpec(inv)
  {
    var taxScheme := NewElement("cac:TaxScheme", None, None);
    taxScheme := AddElement(taxScheme, "cbc:ID", Some("VAT"), None);
    var taxCategory := NewElement("cac:TaxCategory", None, None);
    taxCategory := AddElement(taxCategory, "cbc:ID", Some("S"), None);
    taxCategory := AddElement(taxCategory, "cbc:Percent", Some(IntToString(inv.vat)), None);
    taxCategory := Attach(taxCategory, taxScheme);
    assert taxCategory == TaxTotalSpec(inv).children[1].children[2];
    var taxSubtotal := NewElement("cac:TaxSubtotal", None, None);
    taxSubtotal := AddElement(taxSubtotal, "cbc:TaxableAmount", Some(IntToString(inv.netTotal)), Some(InRon));
    taxSubtotal := AddElement(taxSubtotal, "cbc:TaxAmount", Some(IntToString(inv.totalVat)), Some(InRon));
    taxSubtotal := Attach(taxSubtotal, taxCategory);
    assert taxSubtotal == TaxTotalSpec(inv).children[1];
    taxTotal := NewElement("cac:TaxTotal", None, None);
    taxTotal := AddElement(taxTotal, "cbc:TaxAmount", Some(IntToString(inv.totalVat)), Some(InRon));
    taxTotal := Attach(taxTotal, taxSubtotal);
  }

  /** The `LegalMonetaryTotal` block: the net total twice, then the grand total twice, in RON. */
  method NewLegalMonetaryTotal(inv: Invoice) returns (legalMonetaryTotal: Elem)
    ensures legalMonetaryTotal == MonetaryTotalSpec(inv)
  {
    legalMonetaryTotal := NewElement("cac:LegalMonetaryTotal", None, None);
    legalMonetaryTotal := AddElement(legalMonetaryTotal, "cbc:LineExtensionAmount", Some(IntToString(inv.netTotal)), Some(InRon));
    legalMonetaryTotal := AddElement(legalMonetaryTotal, "cbc:TaxExclusiveAmount", Some(IntToString(inv.netTotal)), Some(InRon));
    legalMonetaryTotal := AddElement(legalMonetaryTotal, "cbc:TaxInclusiveAmount", Some(IntToString(inv.total)), Some(InRon));
    legalMonetaryTotal := AddElement(legalMonetaryTotal, "cbc:PayableAmount", Some(IntToString(inv.total)), Some(InRon));
  }

  /** The `BillingReference` block of a storno invoice. */
  method NewBillingReference(inv: Invoice) returns (billingReference: Elem)
    requires IsStorno(inv)
    ensures [billingReference] == BillingReferenceSpec(inv)
  {
    var invoiceDocumentReference := NewElement("cac:InvoiceDocumentReference", None, None);
    invoiceDocumentReference := AddElement(invoiceDocumentReference, "cbc:ID", Some(inv.stornoId), None);
    invoiceDocumentReference := AddElement(invoiceDocumentReference, "cbc:IssueDate", Some(inv.stornoDate), None);
    assert invoiceDocumentReference == BillingReferenceSpec(inv)[0].children[0];
    billingReference := NewElement("cac:BillingReference", None, None);
    billingReference := Attach(billingReference, invoiceDocumentReference);
  }

  /**
   * The root element and the document header: the seven fixed header
   * elements, then `TaxCurrencyCode` for a foreign currency, then the
   * `BillingReference` of a storno invoice.
   */
  method NewInvoiceHeader(inv: Invoice) returns (invoice: Elem)
    ensures invoice == Elem("Invoice", None, RootAttrs, OpeningSpec(inv))
  {
    invoice := Elem("Invoice", None, RootAttrs, []);
    invoice := AddElement(invoice, "cbc:UBLVersionID", Some("2.1"), None);
    invoice := AddElement(invoice, "cbc:CustomizationID", Some(CiusRoCustomization), None);
    invoice := AddElement(invoice, "cbc:ID", Some(inv.invoiceNumber), None);
    invoice := AddElement(invoice, "cbc:IssueDate", Some(inv.date), None);
    invoice := AddElement(invoice, "cbc:DueDate", Some(inv.dueDate), None);
    invoice := AddElement(invoice, "cbc:InvoiceTypeCode", Some("380"), None);
    invoice := AddElement(invoice, "cbc:DocumentCurrencyCode", Some(inv.currency), None);
    assert invoice.children == HeaderSpec(inv);

    if inv.currency != "RON" {
      invoice := AddElement(invoice, "cbc:TaxCurrencyCode", Some("RON"), None);
    }
    assert invoice.children == HeaderSpec(inv) + TaxCurrencySpec(inv);

    if IsStorno(inv) {
      var billingReference := NewBillingReference(inv);
      invoice := Attach(invoice, billingReference);
    }
  }

  /** Everything `build_invoice_xml` emits before the line loop. */
  method NewInvoicePrefix(inv: Invoice) returns (invoice: Elem)
    ensures invoice == Elem("Invoice", None, RootAttrs, PrefixSpec(inv))
  {
    invoice := NewInvoiceHeader(inv);
    ghost var opening := invoice.children;
    invoice := AddParty(invoice, "cac:AccountingSupplierParty", inv.seller);
    invoice := AddParty(invoice, "cac:AccountingCustomerParty", inv.buyer);
    var paymentMeans := NewPaymentMeans(inv);
    invoice := Attach(invoice, paymentMeans);
    var taxTotal := NewTaxTotal(inv);
    invoice := Attach(invoice, taxTotal);
    var legalMonetaryTotal := NewLegalMonetaryTotal(inv);
    invoice := Attach(invoice, legalMonetaryTotal);
    AppendFive(opening, PartySpec("cac:AccountingSupplierParty", inv.seller),
      PartySpec("cac:AccountingCustomerParty", inv.buyer), paymentMeans, taxTotal, legalMonetaryTotal);
  }

  lemma AppendFive<T>(s: seq<T>, a: T, b: T, c: T, d: T, e: T)
    ensures s + [a] + [b] + [c] + [d] + [e] == s + [a, b, c, d, e]
  {
  }

  lemma PrefixGrows<T>(s: seq<T>, i: nat)
    requires 0 < i <= |s|
    ensures s[..i] == s[..i - 1] + [s[i - 1]]
  {
  }

  /** The `for i, item in enumerate(items, 1)` loop: one line element per item, in order. */
  method AddInvoiceLines(root: Elem, items: seq<Item>, storno: bool) returns (r: Elem)
    ensures r == root.(children := root.children + LinesOf(items, storno))
  {
    r := root;
    for i := 1 to |items| + 1
      invariant r == root.(children := root.children + LinesOf(items, storno)[..i - 1])
    {
      var invoiceLine := NewInvoiceLine(i, items[i - 1], storno);
      r := Attach(r, invoiceLine);
      PrefixGrows(LinesOf(items, storno), i);
    }
    assert LinesOf(items, storno)[..|items|] == LinesOf(items, storno);
  }

  /** `build_invoice_xml`: the whole document, equal to its specification. */
  method BuildInvoiceXml(inv: Invoice) returns (invoice: Elem)
    ensures invoice == InvoiceSpec(inv)
  {
    invoice := NewInvoicePrefix(inv);
    invoice := AddInvoiceLines(invoice, inv.items, IsStorno(inv));
  }
}
