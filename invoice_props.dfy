/**
 * Properties of the finished invoice document: the order of the root's
 * children as the CIUS-RO schema wants it, which optional blocks appear
 * and when, how the lines are numbered, how the amounts read back, and
 * that every amount carries the RON currency attribute.
 */
module InvoiceProperties {
  import opened Wrappers
  import opened Text
  import opened InvoiceXml

  /** The tags of a sequence of elements, in order. */
  function Tags(s: seq<Elem>): seq<string> {
    seq(|s|, k requires 0 <= k < |s| => s[k].tag)
  }

  /** `n` invoice-line tags. */
  function LineTags(n: nat): seq<string> {
    seq(n, k requires 0 <= k < n => "cac:InvoiceLine")
  }

  /** The tags of the seven fixed header elements. */
  const HeaderTags: seq<string> := [
    "cbc:UBLVersionID", "cbc:CustomizationID", "cbc:ID", "cbc:IssueDate", "cbc:DueDate",
    "cbc:InvoiceTypeCode", "cbc:DocumentCurrencyCode"]

  /** The tags of the five blocks between the header and the lines. */
  const BlockTags: seq<string> := [
    "cac:AccountingSupplierParty", "cac:AccountingCustomerParty", "cac:PaymentMeans",
    "cac:TaxTotal", "cac:LegalMonetaryTotal"]

  /**
   * The schema order of the root's children: the seven header elements,
   * `TaxCurrencyCode` for a foreign currency, `BillingReference` for a
   * storno, the two parties, the payment means, the tax total, the
   * monetary total, then one `InvoiceLine` per item.
   */
  function ExpectedTags(inv: Invoice): seq<string> {
    HeaderTags
    + (if inv.currency != "RON" then ["cbc:TaxCurrencyCode"] else [])
    + (if IsStorno(inv) then ["cac:BillingReference"] else [])
    + BlockTags
    + LineTags(|inv.items|)
  }

  /** How many times `t` occurs in `s`. */
  function Count(s: seq<string>, t: string): nat {
    if s == [] then 0 else Count(s[..|s| - 1], t) + (if s[|s| - 1] == t then 1 else 0)
  }

  /** How many of the root's children carry `tag`. */
  function Occurrences(inv: Invoice, tag: string): nat {
    Count(Tags(InvoiceSpec(inv).children), tag)
  }

  lemma TagsAppend(a: seq<Elem>, b: seq<Elem>)
    ensures Tags(a + b) == Tags(a) + Tags(b)
  {
    assert forall k :: 0 <= k < |a + b| ==> Tags(a + b)[k] == (Tags(a) + Tags(b))[k];
  }

  lemma LinesTags(items: seq<Item>, storno: bool)
    ensures Tags(LinesOf(items, storno)) == LineTags(|items|)
  {
  }

  lemma OpeningTags(inv: Invoice)
    ensures Tags(OpeningSpec(inv)) ==
      HeaderTags
      + (if inv.currency != "RON" then ["cbc:TaxCurrencyCode"] else [])
      + (if IsStorno(inv) then ["cac:BillingReference"] else [])
  {
    TagsAppend(HeaderSpec(inv), TaxCurrencySpec(inv));
    TagsAppend(HeaderSpec(inv) + TaxCurrencySpec(inv), BillingReferenceSpec(inv));
  }

  lemma PrefixTags(inv: Invoice)
    ensures Tags(PrefixSpec(inv)) ==
      HeaderTags
      + (if inv.currency != "RON" then ["cbc:TaxCurrencyCode"] else [])
      + (if IsStorno(inv) then ["cac:BillingReference"] else [])
      + BlockTags
  {
    OpeningTags(inv);
    TagsAppend(OpeningSpec(inv), [
      PartySpec("cac:AccountingSupplierParty", inv.seller),
      PartySpec("cac:AccountingCustomerParty", inv.buyer),
      PaymentMeansSpec(inv), TaxTotalSpec(inv), MonetaryTotalSpec(inv)]);
  }

  /** The root's children appear in schema order. */
  lemma ChildOrder(inv: Invoice)
    ensures Tags(InvoiceSpec(inv).children) == ExpectedTags(inv)
  {
    PrefixTags(inv);
    TagsAppend(PrefixSpec(inv), LinesSpec(inv));
    LinesTags(inv.items, IsStorno(inv));
  }

  lemma {:induction false} CountAppend(a: seq<string>, b: seq<string>, t: string)
    ensures Count(a + b, t) == Count(a, t) + Count(b, t)
  {
    if b == [] {
      assert a + b == a;
    } else {
      CountAppend(a, b[..|b| - 1], t);
      assert (a + b)[..|a + b| - 1] == a + b[..|b| - 1];
    }
  }

  lemma {:induction false} CountAbsent(s: seq<string>, t: string)
    requires t !in s
    ensures Count(s, t) == 0
  {
    if s != [] {
      assert s[..|s| - 1] + [s[|s| - 1]] == s;
      CountAbsent(s[..|s| - 1], t);
    }
  }

  /** `n` line tags hold `n` invoice lines and nothing else. */
  lemma {:induction false} LineTagsCount(n: nat, t: string)
    ensures Count(LineTags(n), t) == if t == "cac:InvoiceLine" then n else 0
  {
    if n > 0 {
      assert LineTags(n)[..n - 1] == LineTags(n - 1);
      LineTagsCount(n - 1, t);
    }
  }

  /** How often a tag other than a line's occurs in the expected order. */
  lemma ExpectedCount(inv: Invoice, t: string)
    requires t !in HeaderTags && t !in BlockTags && t != "cac:InvoiceLine"
    ensures Count(ExpectedTags(inv), t) ==
      (if inv.currency != "RON" && t == "cbc:TaxCurrencyCode" then 1 else 0) +
      (if IsStorno(inv) && t == "cac:BillingReference" then 1 else 0)
  {
    var tcc: seq<string> := if inv.currency != "RON" then ["cbc:TaxCurrencyCode"] else [];
    var br: seq<string> := if IsStorno(inv) then ["cac:BillingReference"] else [];
    CountAbsent(HeaderTags, t);
    CountAbsent(BlockTags, t);
    LineTagsCount(|inv.items|, t);
    CountAppend(HeaderTags, tcc, t);
    CountAppend(HeaderTags + tcc, br, t);
    CountAppend(HeaderTags + tcc + br, BlockTags, t);
    CountAppend(HeaderTags + tcc + br + BlockTags, LineTags(|inv.items|), t);
    assert Count(tcc, t) == if inv.currency != "RON" && t == "cbc:TaxCurrencyCode" then 1 else 0 by {
      if tcc != [] { assert tcc[..0] == []; }
    }
    assert Count(br, t) == if IsStorno(inv) && t == "cac:BillingReference" then 1 else 0 by {
      if br != [] { assert br[..0] == []; }
    }
  }

  /** The expected order holds one line tag per item. */
  lemma ExpectedLineCount(inv: Invoice)
    ensures Count(ExpectedTags(inv), "cac:InvoiceLine") == |inv.items|
  {
    var t := "cac:InvoiceLine";
    var opt := (if inv.currency != "RON" then ["cbc:TaxCurrencyCode"] else [])
      + (if IsStorno(inv) then ["cac:BillingReference"] else []);
    assert ExpectedTags(inv) == HeaderTags + opt + BlockTags + LineTags(|inv.items|);
    CountAbsent(HeaderTags + opt + BlockTags, t);
    CountAppend(HeaderTags + opt + BlockTags, LineTags(|inv.items|), t);
    LineTagsCount(|inv.items|, t);
  }

  /** The root holds exactly one `InvoiceLine` per item. */
  lemma LineCount(inv: Invoice)
    ensures Occurrences(inv, "cac:InvoiceLine") == |inv.items|
  {
    ChildOrder(inv);
    ExpectedLineCount(inv);
  }

  /** `TaxCurrencyCode` appears exactly once when the currency is not RON, and never otherwise. */
  lemma TaxCurrencyCodeIffForeign(inv: Invoice)
    ensures Occurrences(inv, "cbc:TaxCurrencyCode") == if inv.currency != "RON" then 1 else 0
  {
    ChildOrder(inv);
    ExpectedCount(inv, "cbc:TaxCurrencyCode");
  }

  /** When present, `TaxCurrencyCode` = "RON" follows `DocumentCurrencyCode` directly. */
  lemma TaxCurrencyCodePosition(inv: Invoice)
    requires inv.currency != "RON"
    ensures InvoiceSpec(inv).children[6] == Leaf("cbc:DocumentCurrencyCode", inv.currency)
    ensures InvoiceSpec(inv).children[7] == Leaf("cbc:TaxCurrencyCode", "RON")
  {
    assert InvoiceSpec(inv).children[..8] == OpeningSpec(inv)[..8];
  }

  /** `BillingReference` appears exactly once on a storno invoice, and never otherwise. */
  lemma BillingReferenceIffStorno(inv: Invoice)
    ensures Occurrences(inv, "cac:BillingReference") == if IsStorno(inv) then 1 else 0
  {
    ChildOrder(inv);
    ExpectedCount(inv, "cac:BillingReference");
  }

  /** The number of children of the root. */
  lemma ChildCount(inv: Invoice)
    ensures |InvoiceSpec(inv).children| ==
      12 + (if inv.currency != "RON" then 1 else 0) + (if IsStorno(inv) then 1 else 0) + |inv.items|
  {
    ChildOrder(inv);
  }

  /**
   * On a storno invoice the back-reference comes right after the header
   * (and after `TaxCurrencyCode` when there is one), directly before the
   * supplier party.
   */
  lemma StornoReferencePosition(inv: Invoice)
    requires IsStorno(inv)
    ensures var c := if inv.currency != "RON" then 1 else 0;
      var tags := Tags(InvoiceSpec(inv).children);
      8 + c < |tags| && tags[7 + c] == "cac:BillingReference" && tags[8 + c] == "cac:AccountingSupplierParty"
  {
    ChildOrder(inv);
    ExpectedStornoPosition(inv);
  }

  lemma ExpectedStornoPosition(inv: Invoice)
    requires IsStorno(inv)
    ensures var c := if inv.currency != "RON" then 1 else 0;
      var tags := ExpectedTags(inv);
      8 + c < |tags| && tags[7 + c] == "cac:BillingReference" && tags[8 + c] == "cac:AccountingSupplierParty"
  {
    var tcc: seq<string> := if inv.currency != "RON" then ["cbc:TaxCurrencyCode"] else [];
    var opening := HeaderTags + tcc + ["cac:BillingReference"];
    assert ExpectedTags(inv) == opening + (BlockTags + LineTags(|inv.items|));
    assert opening[|opening| - 1] == "cac:BillingReference";
  }

  /** The back-reference names the cancelled invoice's number and date. */
  lemma StornoReferenceContent(inv: Invoice)
    requires IsStorno(inv)
    ensures var c := if inv.currency != "RON" then 1 else 0;
      7 + c < |OpeningSpec(inv)| &&
      OpeningSpec(inv)[7 + c] == Node("cac:BillingReference", [
        Node("cac:InvoiceDocumentReference", [
          Leaf("cbc:ID", inv.stornoId), Leaf("cbc:IssueDate", inv.stornoDate)])])
  {
  }

  /** The root's children: the blocks before the lines, then the lines. */
  lemma Layout(inv: Invoice)
    ensures InvoiceSpec(inv).children == PrefixSpec(inv) + LinesSpec(inv)
    ensures |PrefixSpec(inv)| == 12 + (if inv.currency != "RON" then 1 else 0) + (if IsStorno(inv) then 1 else 0)
    ensures |LinesSpec(inv)| == |inv.items|
  {
  }

  /** Line `k` is numbered `k + 1`, and the number reads back. */
  lemma LineNumberReadsBack(inv: Invoice, k: nat)
    requires k < |inv.items|
    ensures var id := LinesSpec(inv)[k].children[0];
      id.tag == "cbc:ID" && id.text.Some? && ParseNat(id.text.value) == Some(k + 1)
  {
    LineIdAt(inv, k);
    NatRoundTrip(k + 1);
  }

  /** No two lines share a number. */
  lemma LineNumbering(inv: Invoice, j: nat, k: nat)
    requires j < |inv.items| && k < |inv.items|
    ensures LinesSpec(inv)[j].children[0].text == LinesSpec(inv)[k].children[0].text <==> j == k
  {
    var tj := LinesSpec(inv)[j].children[0].text;
    var tk := LinesSpec(inv)[k].children[0].text;
    assert tj == Some(NatToString(j + 1)) by {
      LineIdAt(inv, j);
    }
    assert tk == Some(NatToString(k + 1)) by {
      LineIdAt(inv, k);
    }
    NumbersDiffer(tj, tk, j + 1, k + 1);
  }

  /** Two texts holding the renderings of two numbers are equal exactly when the numbers are. */
  lemma NumbersDiffer(tj: Option<string>, tk: Option<string>, m: nat, n: nat)
    requires tj == Some(NatToString(m)) && tk == Some(NatToString(n))
    ensures tj == tk <==> m == n
  {
    NatToStringInjective(m, n);
  }

  lemma LineIdAt(inv: Invoice, k: nat)
    requires k < |inv.items|
    ensures LinesSpec(inv)[k].children[0].tag == "cbc:ID"
    ensures LinesSpec(inv)[k].children[0].text == Some(NatToString(k + 1))
  {
    var id := LineSpec(k + 1, inv.items[k], IsStorno(inv)).children[0];
    assert id == Leaf("cbc:ID", NatToString(k + 1));
  }

  /**
   * The line amount reads back as the item's net total, negated on a
   * storno invoice, and is in RON.
   */
  lemma LineAmountReadsBack(inv: Invoice, k: nat)
    requires k < |inv.items|
    ensures var amount := LinesSpec(inv)[k].children[2];
      amount.tag == "cbc:LineExtensionAmount" && amount.attrs == InRon &&
      amount.text.Some? &&
      ParseInt(amount.text.value) == Some(if IsStorno(inv) then -inv.items[k].netTotal else inv.items[k].netTotal)
  {
    IntRoundTrip(LineAmount(inv.items[k], IsStorno(inv)));
  }

  /**
   * The document totals read back as the invoice's amounts: the net total
   * twice, then the gross total twice, all in RON.
   */
  lemma TotalsReadBack(inv: Invoice)
    ensures var total := MonetaryTotalSpec(inv);
      |total.children| == 4 &&
      (forall i :: 0 <= i < 4 ==> total.children[i].attrs == InRon && total.children[i].text.Some?) &&
      ParseInt(total.children[0].text.value) == Some(inv.netTotal) &&
      ParseInt(total.children[1].text.value) == Some(inv.netTotal) &&
      ParseInt(total.children[2].text.value) == Some(inv.total) &&
      ParseInt(total.children[3].text.value) == Some(inv.total)
  {
    IntRoundTrip(inv.netTotal);
    IntRoundTrip(inv.total);
  }

  /** Every element with a monetary tag, at any depth, is in RON. */
  predicate AmountsInRon(e: Elem)
    decreases e
  {
    (e.tag in MonetaryTags ==> e.attrs == InRon) &&
    forall i :: 0 <= i < |e.children| ==> AmountsInRon(e.children[i])
  }

  predicate AllAmountsInRon(s: seq<Elem>) {
    forall i :: 0 <= i < |s| ==> AmountsInRon(s[i])
  }

  lemma AllAppend(a: seq<Elem>, b: seq<Elem>)
    requires AllAmountsInRon(a) && AllAmountsInRon(b)
    ensures AllAmountsInRon(a + b)
  {
  }

  lemma PostalAddressInRon(p: Party)
    ensures AmountsInRon(PostalAddressSpec(p))
  {
    var postal := PostalAddressSpec(p);
    assert AmountsInRon(postal.children[4]);
    assert AllAmountsInRon(postal.children);
  }

  lemma TaxSchemesInRon(p: Party)
    ensures AmountsInRon(PartyEntitySpec(p).children[2])
    ensures AmountsInRon(PartyEntitySpec(p).children[3])
  {
    var entity := PartyEntitySpec(p);
    assert AmountsInRon(entity.children[2].children[1]);
    assert AllAmountsInRon(entity.children[2].children);
    assert AllAmountsInRon(entity.children[3].children);
  }

  lemma PartyInRon(partyTag: string, p: Party)
    requires partyTag !in MonetaryTags
    ensures AmountsInRon(PartySpec(partyTag, p))
  {
    PostalAddressInRon(p);
    TaxSchemesInRon(p);
    var entity := PartyEntitySpec(p);
    assert AmountsInRon(entity.children[0]);
    assert AmountsInRon(entity.children[4]);
    assert AllAmountsInRon(entity.children);
    assert AllAmountsInRon(PartySpec(partyTag, p).children);
  }

  lemma TaxTotalInRon(inv: Invoice)
    ensures AmountsInRon(TaxTotalSpec(inv))
  {
    var subtotal := TaxTotalSpec(inv).children[1];
    var category := subtotal.children[2];
    assert AmountsInRon(category.children[2]);
    assert AllAmountsInRon(category.children);
    assert AllAmountsInRon(subtotal.children);
  }

  lemma LineItemInRon(item: Item)
    ensures AmountsInRon(LineItemSpec(item))
  {
    var category := LineItemSpec(item).children[1];
    assert AmountsInRon(category.children[2]);
    assert AllAmountsInRon(category.children);
    assert AllAmountsInRon(LineItemSpec(item).children);
  }

  lemma LineInRon(n: nat, item: Item, storno: bool)
    ensures AmountsInRon(LineSpec(n, item, storno))
  {
    LineItemInRon(item);
    var line := LineSpec(n, item, storno);
    assert AllAmountsInRon(line.children[4].children);
    assert AllAmountsInRon(line.children);
  }

  lemma PaymentMeansInRon(inv: Invoice)
    ensures AmountsInRon(PaymentMeansSpec(inv))
  {
    assert AllAmountsInRon(PaymentMeansSpec(inv).children[1].children);
    assert AllAmountsInRon(PaymentMeansSpec(inv).children);
  }

  lemma MonetaryTotalInRon(inv: Invoice)
    ensures AmountsInRon(MonetaryTotalSpec(inv))
  {
    assert AllAmountsInRon(MonetaryTotalSpec(inv).children);
  }

  lemma OpeningInRon(inv: Invoice)
    ensures AllAmountsInRon(OpeningSpec(inv))
  {
    assert AllAmountsInRon(HeaderSpec(inv));
    if IsStorno(inv) {
      var reference := BillingReferenceSpec(inv)[0];
      assert AllAmountsInRon(reference.children[0].children);
      assert AllAmountsInRon(reference.children);
    }
    AllAppend(HeaderSpec(inv), TaxCurrencySpec(inv));
    AllAppend(HeaderSpec(inv) + TaxCurrencySpec(inv), BillingReferenceSpec(inv));
  }

  lemma BlocksInRon(inv: Invoice)
    ensures AllAmountsInRon(BlocksSpec(inv))
  {
    PartyInRon("cac:AccountingSupplierParty", inv.seller);
    PartyInRon("cac:AccountingCustomerParty", inv.buyer);
    TaxTotalInRon(inv);
    PaymentMeansInRon(inv);
    MonetaryTotalInRon(inv);
  }

  lemma PrefixInRon(inv: Invoice)
    ensures AllAmountsInRon(PrefixSpec(inv))
  {
    OpeningInRon(inv);
    BlocksInRon(inv);
    AllAppend(OpeningSpec(inv), BlocksSpec(inv));
  }

  lemma LinesInRon(items: seq<Item>, storno: bool)
    ensures AllAmountsInRon(LinesOf(items, storno))
  {
    forall k | 0 <= k < |items|
      ensures AmountsInRon(LinesOf(items, storno)[k])
    {
      LineInRon(k + 1, items[k], storno);
    }
  }

  /**
   * Every monetary amount anywhere in the document carries
   * `currencyID="RON"`, whatever the invoice's own currency.
   */
  lemma DocumentAmountsInRon(inv: Invoice)
    ensures AmountsInRon(InvoiceSpec(inv))
  {
    PrefixInRon(inv);
    LinesInRon(inv.items, IsStorno(inv));
    AllAppend(PrefixSpec(inv), LinesSpec(inv));
  }
}
