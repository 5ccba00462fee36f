# pyAnaf in Dafny

A verified model of the core of pyAnaf, a Python client for the Romanian
tax authority (ANAF). It covers four parts:

- **The VAT-registry lookup** (`api.py`, `cui_lookup.dfy`). The `Anaf`
  object keeps an insertion-ordered batch of fiscal codes (CUIs), each with
  a query date. It enforces a limit on the batch and builds the query
  payload.
- **The registry and e-Factura reply records** (`models.py`,
  `result_models.dfy`). These read decoded JSON replies into
  `AnafResultEntry`, `AnafEinvoiceMessage`, the list entry and the
  paginated listing.
- **The e-Factura client** (`einvoice_api.py`, `einvoice_client.dfy`).
  `AnafAuth` covers the OAuth authorization URL, the token request and the
  token refresh. `EinvoiceApi` covers the token-validity check, the refresh
  policy, the two listing calls and the invoice upload.
- **The UBL 2.1 / CIUS-RO invoice builder** (`einvoice.py`,
  `invoice_xml.dfy`, `invoice_props.dfy`). `XMLBuilder` grows the
  `Invoice` element tree one child at a time.

Supporting modules:

- `wrappers.dfy`: `Option` and `Result`.
- `text.dfy`: `str(int)`, `int(str)`, zero padding, `strip` and `split`,
  with their round trips.
- `json.dfy`: decoded JSON values with Python's subscript, iteration and
  truthiness.
- `query_string.dfy`: `key=value&...` queries and reading them back.

## How the model is built

**Invoice builder.** The builder is imperative: one method per block of
`build_invoice_xml` and `add_party`. Each method appends children with
`AddElement`, and each is proved equal to a declarative description of
its block. `BuildInvoiceXml` is proved equal to `InvoiceSpec`. The
properties of the document are lemmas about `InvoiceSpec`:

- the children appear in schema order;
- `TaxCurrencyCode` appears if and only if the currency is not RON;
- `BillingReference` appears if and only if the invoice is a storno;
- the lines are numbered 1, 2, … in item order;
- the amounts and totals read back as the invoice's amounts;
- every monetary amount carries `currencyID="RON"`.

**Client state.** `Anaf`, `AnafAuth` and `EinvoiceApi` are classes whose
methods update their fields. The batch is the value `Batch`: an order of
keys plus a map, because a Python dictionary keeps insertion order.
`Anaf.WS_ENDPOINTS` is a class attribute mutated through `self`, so it is
a separate `EndpointTable` object that every `Anaf` shares.

**External inputs.** The network, the JWT decoder and the clock are
parameters of the calls:

- the reply a request receives (`HttpReply`);
- the outcome of decoding the access token (`DecodeOutcome`);
- the current time in seconds.

**Where the code was followed.** Where the code and its documentation
disagree, the model follows the code:

- **`is_token_valid`** answers `True` when the token has expired, and
  `False` when it is still good or cannot be decoded. `ensure_token_valid`
  therefore refreshes exactly the expired tokens. `IsTokenValid` keeps the
  inverted name and answer, and `RefreshOnlyWhenExpired` states the
  resulting policy.
- **Booleans pass as CUIs.** `isinstance(True, int)` holds in Python, so a
  boolean passes CUI validation. As a dictionary key it is the number 1
  (or 0). `ValidateCui` accepts booleans the same way.
- **Invoice field names.** The builder reads `invoice_number`, `storno_id`,
  `total_vat`, `seller.iban` and so on. `Invoice` and `Party` carry the
  fields the builder reads. The `Einvoice` class of `einvoice.py` stores
  its number as `invoice_id` (lines 25-26), so handing one to
  `build_invoice_xml` raises `AttributeError` at `einvoice.invoice_number`
  (line 81); the model's `Invoice` is the object the builder expects.
  Likewise `EinvoiceSeller` (lines 4-12) has no `county`, `cui`, `email`
  or `iban`, so handing one to the builder as a party raises
  `AttributeError` at `entity.county` (line 173); the model's `Party`
  carries every field the builder reads.

## Model

| member | source | states |
|---|---|---|
| Text.NatToString | pyAnaf/einvoice.py:133 | `str(n)` is a non-empty digit string with no leading zero, one digit exactly for n < 10 |
| Text.IntToString | pyAnaf/einvoice.py:105 | `str(i)` is non-empty and starts with `-` exactly when i is negative |
| Text.ParseNat | pyAnaf/api.py:63 | a string reads as a natural number exactly when it is a non-empty run of digits |
| Text.ParseInt | pyAnaf/api.py:63 | a string reads as an integer exactly when it is a non-empty run of digits, optionally after one `+` or `-`; only a `-` gives a negative value |
| Text.SignedValue | pyAnaf/api.py:63 | `int()` of a digit run, with `+`, `-` or no sign and leading zeros allowed, is its decimal value, negated after `-` |
| Text.NatRoundTrip | pyAnaf/einvoice.py:133 | the decimal rendering of a natural number reads back as that number |
| Text.IntRoundTrip | pyAnaf/einvoice.py:140 | the decimal rendering of any integer, sign included, reads back as that integer |
| Text.NatToStringInjective | pyAnaf/einvoice.py:131-133 | two numbers have the same rendering if and only if they are equal |
| Text.ZeroPad | pyAnaf/api.py:124 | padding keeps the string as a suffix, adds only `0`s, and reaches the width |
| Text.PaddedRoundTrip | pyAnaf/api.py:124 | a zero-padded rendering of n still reads back as n |
| Text.PaddedValue | pyAnaf/api.py:124 | zero padding keeps a digit string a digit string of the same value |
| Text.LeadingZeros | pyAnaf/api.py:124 | leading zeros do not change the value of a digit string |
| Text.Strip | pyAnaf/api.py:63 | `strip()` gives the piece between the leading and trailing whitespace (the six ASCII whitespace characters), which neither starts nor ends with whitespace |
| Text.Split | pyAnaf/einvoice_api.py:252 | no piece of a split contains the separator, and there is always at least one piece |
| Text.SplitJoin | pyAnaf/einvoice_api.py:252 | splitting `a sep b` with no `sep` in a gives a, then the pieces of b |
| Text.SplitNoSep | pyAnaf/einvoice_api.py:252 | a string without the separator splits into itself |
| JsonData.Get | pyAnaf/models.py:35 | `j[key]` succeeds exactly on a dictionary holding the key, gives its value, and raises KeyError or TypeError otherwise |
| JsonData.Get2 | pyAnaf/models.py:3 | `j[a][b]` succeeds exactly when both levels hold the keys, and gives the inner value |
| JsonData.Elements | pyAnaf/models.py:39 | a list is iterated over its items; anything else iterates to no JSON elements or raises |
| JsonData.Truthy | pyAnaf/models.py:5 | a JSON value is falsy exactly when it is null, false, 0, the empty string, the empty list or the empty dictionary |
| QueryString.Lookup | pyAnaf/einvoice_api.py:64-70 | a key is found exactly when some pair carries it, and the value found is paired with it |
| QueryString.LookupAt | pyAnaf/einvoice_api.py:64-70 | the first pair with the key decides the lookup |
| QueryString.LookupAbsent | pyAnaf/einvoice_api.py:64-70 | a key that no pair carries is not found |
| QueryString.FieldRoundTrip | pyAnaf/einvoice_api.py:252 | one `key=value` field reads back as its pair when the key has no `=` |
| QueryString.SplitEncode | pyAnaf/einvoice_api.py:252 | a query of plain pairs splits at `&` into exactly its fields |
| QueryString.EncodeRoundTrip | pyAnaf/einvoice_api.py:252 | a non-empty query of plain pairs reads back as the same pairs in the same order |
| QueryString.QueryReadsBack | pyAnaf/einvoice_api.py:252 | cut at its first `?`, a URL is its base followed by a query that reads back as its parameters |
| ResultModels.ResultEntryOf | pyAnaf/models.py:1-10 | a registry result is read exactly when it has all eight fields; the company is active exactly when its inactivity status is falsy |
| ResultModels.EntryReportsFirstFailedRead | pyAnaf/models.py:1-10 | a registry result missing fields fails with the failure of the first read, in source order, that misses |
| ResultModels.ResultEntryRoundTrip | pyAnaf/models.py:1-10 | every entry, including its activity flag, is read back from the reply that describes it |
| ResultModels.MessageOf | pyAnaf/models.py:21-27 | a message is read exactly when all six keys are present, one to one; a non-dictionary raises TypeError |
| ResultModels.MessageReportsFirstMissingKey | pyAnaf/models.py:21-27 | a message missing keys fails with the KeyError of the first missing key in source order |
| ResultModels.MessageRoundTrip | pyAnaf/models.py:21-27 | every message is read back from its reply |
| ResultModels.MessagesOf | pyAnaf/models.py:39 | a list of items is read exactly when every item is a message, in order; otherwise it fails as the first bad item does |
| ResultModels.MessagesField | pyAnaf/models.py:39 | a missing `mesaje` gives no messages; a list gives one message per item |
| ResultModels.MessagesJson | pyAnaf/models.py:39 | one reply item per message |
| ResultModels.MessagesRoundTrip | pyAnaf/models.py:39 | a list of messages is read back item by item, in order |
| ResultModels.MessagesFieldOf | pyAnaf/models.py:39 | a reply whose `mesaje` lists messages gives those messages |
| ResultModels.ListMessagesEntryOf | pyAnaf/models.py:33-39 | `titlu` is required (KeyError otherwise); `eroare`, `serial` and `cui` default to None; the messages follow `mesaje` |
| ResultModels.ListMessagesEntryRoundTrip | pyAnaf/models.py:33-39 | every list entry is read back from its reply |
| ResultModels.PaginatedMessagesOf | pyAnaf/models.py:45-56 | as the list entry, with the page counters defaulting to 0 and the page size to 500 |
| ResultModels.PaginatedAgreesWithListEntry | pyAnaf/models.py:45-56 | a paginated listing fails exactly when, and as, a list entry of the same reply does, and otherwise reads the same title, error, serial, CUI and messages |
| ResultModels.PaginatedDefaults | pyAnaf/models.py:47-55 | a page carrying only its title has no error, zero counters and a page size of 500 |
| CuiLookup.IsoRoundTrip | pyAnaf/api.py:124 | the ISO date sent for a CUI reads back as the stored date |
| CuiLookup.IsoFormat | pyAnaf/api.py:124 | `isoformat()` writes at least ten characters, and for a year below 10000 with month and day below 100 (every date `datetime.date` holds) exactly ten with dashes at positions 4 and 7 (`IsoRoundTrip` reads it back) |
| CuiLookup.SplitDashes | pyAnaf/api.py:124 | three dash-free pieces joined by dashes split back into those pieces |
| CuiLookup.ParseParts | pyAnaf/api.py:124 | a string whose three dash-separated parts read as the year, month and day reads as that date |
| CuiLookup.PaddedHasNoDash | pyAnaf/api.py:124 | a zero-padded date field contains no dash |
| CuiLookup.ValidateCui | pyAnaf/api.py:47-49 | a CUI passes exactly when it is an int, booleans included; otherwise it fails with "CUI should be integer" |
| CuiLookup.ValidateDate | pyAnaf/api.py:51-53 | a date passes exactly when it is a date; otherwise it fails with the date error |
| CuiLookup.DateArg | pyAnaf/api.py:79-80 | a missing date becomes today, which passes the date check as today; any other value is passed on unchanged |
| CuiLookup.TooManyCuis | pyAnaf/api.py:83 | the over-limit error is the fixed text followed by the limit, which reads back as that limit |
| CuiLookup.Truncate | pyAnaf/api.py:63 | `int()` of a float truncates toward zero |
| CuiLookup.IntOf | pyAnaf/api.py:61-65 | `int()` gives an int itself, a bool as 0 or 1, a float truncated toward zero (`Truncate`), and a string as its stripped decimal text (`ParseInt`); it rejects dates, None and anything else |
| CuiLookup.LeadingSpacesOf | pyAnaf/api.py:63 | whitespace before a non-space counts fully as leading whitespace |
| CuiLookup.TrimRightOf | pyAnaf/api.py:63 | trailing whitespace after a non-space is exactly what right-trimming removes |
| CuiLookup.IntOfRendered | pyAnaf/api.py:61-65 | a limit given as the decimal text of an integer, with any surrounding whitespace, is read as that integer |
| CuiLookup.IntOfWholeFloat | pyAnaf/api.py:61-65 | a whole float limit is read as itself |
| CuiLookup.Batch.Put | pyAnaf/api.py:87-88 | `self.cuis[cui] = date`: the date is stored; a known CUI keeps its place, a new one goes last |
| CuiLookup.Batch.Entry | pyAnaf/api.py:119-126 | payload entry i carries the i-th stored CUI and that CUI's date, which `Data` renders in ISO format |
| CuiLookup.Batch.Entries | pyAnaf/api.py:119-126 | the payload of the first n CUIs has n entries |
| CuiLookup.PutValid | pyAnaf/api.py:88 | every insertion keeps the keys distinct and in step with the map |
| CuiLookup.PutSize | pyAnaf/api.py:88 | inserting a known CUI keeps the size and overwrites the date; a new CUI grows the batch by one; other CUIs keep their dates |
| CuiLookup.LastWriteWins | pyAnaf/api.py:88 | two insertions of the same CUI leave the later date |
| CuiLookup.DistinctCard | pyAnaf/api.py:108 | a list of distinct keys has as many elements as its set |
| CuiLookup.SizeIsKeyCount | pyAnaf/api.py:108 | the batch size is the number of keys, as `len(self.cuis.items())` counts them |
| CuiLookup.PutAllSnoc | pyAnaf/api.py:86-88 | inserting one more CUI continues the batch insertion |
| CuiLookup.PutAllValid | pyAnaf/api.py:86-88 | a batch insertion keeps the batch well formed |
| CuiLookup.PutAllDates | pyAnaf/api.py:86-88 | after a batch insertion every inserted CUI has the new date and every other CUI its old one |
| CuiLookup.PutAllSize | pyAnaf/api.py:86-88 | a batch grows by at most the number of CUIs inserted; known or repeated CUIs do not count |
| CuiLookup.ExistingEntriesNotCounted | pyAnaf/api.py:82-88 | the list check counts only the new list: a full batch accepts the one-CUI list of a new CUI, which passes the length and CUI checks and leaves one entry over the limit |
| CuiLookup.ValidPrefix | pyAnaf/api.py:86-88 | the CUIs inserted before the first invalid one are all valid, and the one that stops the loop is invalid |
| CuiLookup.CuiKeys | pyAnaf/api.py:86-88 | the dictionary keys of valid CUIs, one per CUI, in order |
| CuiLookup.PutAllStep | pyAnaf/api.py:86-88 | inserting one more valid CUI of the list extends the batch insertion by that CUI |
| CuiLookup.EntriesAt | pyAnaf/api.py:119-126 | entry k of the payload is the k-th stored CUI with its date |
| CuiLookup.QueryPayloadEntries | pyAnaf/api.py:119-126 | every entry of the query payload is the corresponding stored CUI with its date in ISO format |
| CuiLookup.QueryPayloadDates | pyAnaf/api.py:121-125 | the `data` of every payload entry reads back as the date stored for its CUI |
| CuiLookup.QueryPayloadCuis | pyAnaf/api.py:119-126 | the payload has one entry per stored CUI: no CUI twice, and every stored CUI present |
| CuiLookup.EndpointTable.constructor | pyAnaf/api.py:38-41 | the endpoint table starts with the sync and async ANAF URLs |
| CuiLookup.Anaf.constructor | pyAnaf/api.py:42-45 | a new client has an empty batch, the limit of 500 and the shared endpoint table |
| CuiLookup.Anaf.AddEndpoint | pyAnaf/api.py:55-59 | only `sync` and `async` can be set, in the table every client shares; any other target fails and changes nothing |
| CuiLookup.Anaf.SetLimit | pyAnaf/api.py:61-65 | the limit becomes `int(value)`, or the call fails and keeps the old limit |
| CuiLookup.Anaf.SetCuiList | pyAnaf/api.py:67-88 | a list over the limit is rejected before anything changes; then the date is checked; then the CUIs are inserted up to the first invalid one |
| CuiLookup.Anaf.AddCui | pyAnaf/api.py:90-110 | validates the CUI, then the date, inserts, then fails if the batch is over the limit, keeping the entry |
| CuiLookup.Anaf.Query | pyAnaf/api.py:112-126 | the payload is one entry per stored CUI, in insertion order, with the date in ISO format |
| InvoiceXml.NewElement | pyAnaf/einvoice.py:48-56 | a new element has the tag, the given attributes or none, no children, and text only when the text is truthy |
| InvoiceXml.Attach | pyAnaf/einvoice.py:51 | appends one child as the last one; nothing else of the parent changes |
| InvoiceXml.AddElement | pyAnaf/einvoice.py:39-56 | `add_element`: the parent gains exactly one last child, with the tag, attributes and truthy text given |
| InvoiceXml.NewPostalAddress | pyAnaf/einvoice.py:169-175 | the postal address block has street, city, postal zone, county and country, in that order |
| InvoiceXml.NewPartyEntity | pyAnaf/einvoice.py:165-187 | the `cac:Party` block has name, address, tax scheme, legal entity and contact, in that order |
| InvoiceXml.AddParty | pyAnaf/einvoice.py:156-187 | `add_party` appends exactly one party block to the invoice |
| InvoiceXml.NewLineItem | pyAnaf/einvoice.py:143-149 | the line's `Item` block has the name and the standard-rated VAT category |
| InvoiceXml.NewInvoiceLine | pyAnaf/einvoice.py:132-151 | invoice line n has its number, quantity, amount (negated on a storno), item and price |
| InvoiceXml.NewPaymentMeans | pyAnaf/einvoice.py:99-102 | payment means code 31 to the seller's IBAN |
| InvoiceXml.NewTaxTotal | pyAnaf/einvoice.py:104-115 | the tax total, taxable amount and standard VAT category, in RON |
| InvoiceXml.NewLegalMonetaryTotal | pyAnaf/einvoice.py:117-129 | the net total twice, then the grand total twice, in RON |
| InvoiceXml.NewBillingReference | pyAnaf/einvoice.py:90-94 | the storno back-reference names the cancelled invoice's number and date |
| InvoiceXml.NewInvoiceHeader | pyAnaf/einvoice.py:65-94 | the root with its namespaces, the seven header elements, then the optional tax currency and billing reference |
| InvoiceXml.NewInvoicePrefix | pyAnaf/einvoice.py:65-129 | everything before the line loop, in document order |
| InvoiceXml.AddInvoiceLines | pyAnaf/einvoice.py:131-151 | the line loop appends one line per item, in item order, and nothing else |
| InvoiceXml.LinesOf | pyAnaf/einvoice.py:131-151 | one `cac:InvoiceLine` per item, in item order, the k-th one opening with `cbc:ID` k+1 |
| InvoiceXml.InvoiceSpec | pyAnaf/einvoice.py:59-153 | the document is an `Invoice` root with the namespace attributes and no text, ending with exactly the item lines |
| InvoiceXml.BuildInvoiceXml | pyAnaf/einvoice.py:59-153 | `build_invoice_xml` produces exactly the specified document |
| InvoiceProperties.TagsAppend | pyAnaf/einvoice.py:59-153 | the tags of joined children are the tags of each part, in order |
| InvoiceProperties.LinesTags | pyAnaf/einvoice.py:131-132 | the line loop contributes one `cac:InvoiceLine` per item |
| InvoiceProperties.OpeningTags | pyAnaf/einvoice.py:77-94 | the header tags, then `TaxCurrencyCode` for a foreign currency, then `BillingReference` for a storno |
| InvoiceProperties.PrefixTags | pyAnaf/einvoice.py:77-129 | the tags before the lines are the header, the optional blocks, the two parties, payment means, tax total and monetary total |
| InvoiceProperties.ChildOrder | pyAnaf/einvoice.py:59-153 | the root's children appear in the schema order the builder writes |
| InvoiceProperties.CountAppend | pyAnaf/einvoice.py:59-153 | occurrences in joined tag lists add up |
| InvoiceProperties.CountAbsent | pyAnaf/einvoice.py:59-153 | a tag not in a list occurs zero times |
| InvoiceProperties.LineTagsCount | pyAnaf/einvoice.py:131-132 | n line tags hold n invoice lines and no other tag |
| InvoiceProperties.ExpectedCount | pyAnaf/einvoice.py:77-129 | how often each tag other than a line's occurs in the schema order |
| InvoiceProperties.ExpectedLineCount | pyAnaf/einvoice.py:131-132 | the schema order holds one line tag per item |
| InvoiceProperties.LineCount | pyAnaf/einvoice.py:131-132 | the document holds exactly one `InvoiceLine` per item |
| InvoiceProperties.TaxCurrencyCodeIffForeign | pyAnaf/einvoice.py:87-88 | `TaxCurrencyCode` occurs once when the currency is not RON, and never otherwise |
| InvoiceProperties.TaxCurrencyCodePosition | pyAnaf/einvoice.py:85-88 | when present, `TaxCurrencyCode` = RON directly follows `DocumentCurrencyCode` |
| InvoiceProperties.BillingReferenceIffStorno | pyAnaf/einvoice.py:90-94 | `BillingReference` occurs once on a storno invoice, and never otherwise |
| InvoiceProperties.ChildCount | pyAnaf/einvoice.py:59-153 | the root has 12 fixed children, plus one per optional block, plus one per item |
| InvoiceProperties.StornoReferencePosition | pyAnaf/einvoice.py:87-97 | on a storno, the back-reference comes right after the header (and tax currency) and directly before the supplier party |
| InvoiceProperties.ExpectedStornoPosition | pyAnaf/einvoice.py:87-97 | the schema order puts `BillingReference` at that position |
| InvoiceProperties.StornoReferenceContent | pyAnaf/einvoice.py:90-94 | the back-reference names the cancelled invoice's number and date |
| InvoiceProperties.Layout | pyAnaf/einvoice.py:59-153 | the root's children are the blocks before the lines, then the lines, with their counts |
| InvoiceProperties.LineNumberReadsBack | pyAnaf/einvoice.py:131-133 | line k carries a `cbc:ID` that reads back as k + 1 |
| InvoiceProperties.LineNumbering | pyAnaf/einvoice.py:131-133 | two lines share a number if and only if they are the same line |
| InvoiceProperties.LineIdAt | pyAnaf/einvoice.py:133 | the first child of line k is `cbc:ID` holding k + 1 |
| InvoiceProperties.LineAmountReadsBack | pyAnaf/einvoice.py:137-142 | the line amount reads back as the item's net total, negated on a storno, in RON |
| InvoiceProperties.TotalsReadBack | pyAnaf/einvoice.py:117-129 | the document totals read back as the net total twice and the gross total twice, in RON |
| InvoiceProperties.AllAppend | pyAnaf/einvoice.py:59-153 | amounts in RON in both parts means amounts in RON in the whole |
| InvoiceProperties.PostalAddressInRon | pyAnaf/einvoice.py:169-175 | an address holds no amount outside RON |
| InvoiceProperties.TaxSchemesInRon | pyAnaf/einvoice.py:177-184 | a party's tax scheme and legal entity hold no amount outside RON |
| InvoiceProperties.PartyInRon | pyAnaf/einvoice.py:156-187 | a party block holds no amount outside RON |
| InvoiceProperties.TaxTotalInRon | pyAnaf/einvoice.py:104-115 | every amount of the tax total is in RON |
| InvoiceProperties.LineItemInRon | pyAnaf/einvoice.py:143-149 | a line's item block holds no amount outside RON |
| InvoiceProperties.LineInRon | pyAnaf/einvoice.py:132-151 | every amount of an invoice line is in RON |
| InvoiceProperties.PaymentMeansInRon | pyAnaf/einvoice.py:99-102 | the payment means hold no amount outside RON |
| InvoiceProperties.MonetaryTotalInRon | pyAnaf/einvoice.py:117-129 | every document total is in RON |
| InvoiceProperties.OpeningInRon | pyAnaf/einvoice.py:77-94 | the header and optional blocks hold no amount outside RON |
| InvoiceProperties.BlocksInRon | pyAnaf/einvoice.py:96-129 | the parties, payment means and totals hold only RON amounts |
| InvoiceProperties.PrefixInRon | pyAnaf/einvoice.py:77-129 | everything before the lines holds only RON amounts |
| InvoiceProperties.LinesInRon | pyAnaf/einvoice.py:131-151 | every line holds only RON amounts |
| InvoiceProperties.DocumentAmountsInRon | pyAnaf/einvoice.py:59-153 | every monetary amount anywhere in the document carries `currencyID="RON"`, whatever the invoice currency |
| EinvoiceClient.ParseElement | pyAnaf/einvoice_api.py:23-29 | `parse_element` copies the attributes one by one into a dictionary equal to the attribute map |
| EinvoiceClient.TokenOutcome | pyAnaf/einvoice_api.py:74-84 | the token endpoint's reply succeeds exactly on status 200 with its body; otherwise the error starts with the call's prefix |
| EinvoiceClient.Classify | pyAnaf/einvoice_api.py:168-178 | an API reply succeeds exactly on status 200; 401 and 403 are "Unauthorized"; any other status or a transport error starts with the call's prefix |
| EinvoiceClient.ClassifyAgreesWithTokenOutcome | pyAnaf/einvoice_api.py:168-178 | the API and the token endpoint treat every reply alike except 401 and 403 |
| EinvoiceClient.StatusReadsBack | pyAnaf/einvoice_api.py:178 | an unexpected status is reported as the prefix followed by the status, which reads back |
| EinvoiceClient.TokenFormFields | pyAnaf/einvoice_api.py:64-70 | the token request asks for the `authorization_code` grant, carries the code and identifies the client |
| EinvoiceClient.RefreshFormFields | pyAnaf/einvoice_api.py:88-94 | the refresh request asks for the `refresh_token` grant, carries the refresh token and identifies the client as the token request does |
| EinvoiceClient.JoinStep | pyAnaf/einvoice_api.py:51-55 | a separator and a joined query are the first field after it, then `&` and the rest |
| EinvoiceClient.JoinFour | pyAnaf/einvoice_api.py:51-55 | four joined fields are written one after another, each after its separator |
| EinvoiceClient.FieldPiece | pyAnaf/einvoice_api.py:52-55 | one field after its separator is the literal `sep key=` and the value |
| EinvoiceClient.AuthPieces | pyAnaf/einvoice_api.py:52-55 | each authorization field is the literal the URL is written with |
| EinvoiceClient.AuthQueryEncoded | pyAnaf/einvoice_api.py:51-55 | the encoded authorization query, field by field |
| EinvoiceClient.AuthQueryText | pyAnaf/einvoice_api.py:46-57 | the URL written piece by piece is the base, `?` and the encoded parameters |
| EinvoiceClient.AuthParamsPlain | pyAnaf/einvoice_api.py:52-55 | with no `&` in the client's values, the authorization parameters can be told apart again |
| EinvoiceClient.AuthUrlReadsBack | pyAnaf/einvoice_api.py:46-57 | the authorization URL reads back as the base and the client id, secret, `response_type=code` and redirect URI |
| EinvoiceClient.AuthAsksForCode | pyAnaf/einvoice_api.py:54 | the authorization URL always asks for a code |
| EinvoiceClient.RefreshOutcomeAsWritten | pyAnaf/einvoice_api.py:98-108 | as written, every refresh fails: a 200 reply raises the `json.loads` type error, anything else the refresh error |
| EinvoiceClient.RefreshAsWrittenLosesTokens | pyAnaf/einvoice_api.py:106 | a well-formed refresh reply is lost as written and read as intended by the corrected refresh |
| EinvoiceClient.ExpiredTokenRaisesAsWritten | pyAnaf/einvoice_api.py:106 | as written, every call that finds its token expired raises while refreshing, whatever the reply, and both tokens stay as they were |
| EinvoiceClient.AnafAuth.constructor | pyAnaf/einvoice_api.py:33-38 | the client's credentials and the configured authorization and token URLs |
| EinvoiceClient.AnafAuth.SetAuthUrl | pyAnaf/einvoice_api.py:40-41 | replaces the authorization URL only |
| EinvoiceClient.AnafAuth.SetTokenUrl | pyAnaf/einvoice_api.py:43-44 | replaces the token URL only |
| EinvoiceClient.AnafAuth.GetAuthUrl | pyAnaf/einvoice_api.py:46-57 | the URL is the authorization endpoint, `?` and the encoded client query |
| EinvoiceClient.AnafAuth.GetAnafToken | pyAnaf/einvoice_api.py:59-84 | no code means no request and no result; otherwise the code is posted with the credentials and the reply is read as a token reply |
| EinvoiceClient.AnafAuth.RefreshAnafToken | pyAnaf/einvoice_api.py:86-108 | posts the refresh form and reads the reply's body, succeeding exactly on status 200 |
| EinvoiceClient.IsTokenValid | pyAnaf/einvoice_api.py:127-137 | the answer is True exactly when the token has expired; a decoded token without `exp` raises KeyError |
| EinvoiceClient.RefreshTokens | pyAnaf/einvoice_api.py:139-142 | the access token is replaced first, then the refresh token; a missing key raises and leaves what was already replaced |
| EinvoiceClient.RefreshOnlyWhenExpired | pyAnaf/einvoice_api.py:144-146 | only an expired token is refreshed; a good, undecodable or `exp`-less token leaves both tokens alone |
| EinvoiceClient.EnsureTokens | pyAnaf/einvoice_api.py:144-146 | a token without `exp` raises KeyError and keeps both tokens; an expired token is refreshed; any other token is kept with no error |
| EinvoiceClient.ListParams | pyAnaf/einvoice_api.py:157-160 | `cif`, `zile` (30 by default), and `filtru` only when a filter is given |
| EinvoiceClient.PaginatedParams | pyAnaf/einvoice_api.py:195-200 | `cif`, `startTime`, `endTime`, `pagina`, and `filtru` only when a filter is given |
| EinvoiceClient.UploadParams | pyAnaf/einvoice_api.py:241-252 | `standard` and `cif`, then `external=DA` and `selfInvoice=DA` only when set |
| EinvoiceClient.NumberIsPlain | pyAnaf/einvoice_api.py:157 | a rendered number holds no `&` |
| EinvoiceClient.ListParamsPlain | pyAnaf/einvoice_api.py:157-160 | the list query can be told apart again when the CIF and filter hold no `&` |
| EinvoiceClient.PaginatedParamsPlain | pyAnaf/einvoice_api.py:195-200 | so can the paginated query |
| EinvoiceClient.ListUrlReadsBack | pyAnaf/einvoice_api.py:157-160 | the list URL reads back as the API base, the endpoint and the list query |
| EinvoiceClient.ListMessagesUrl | pyAnaf/einvoice_api.py:157-160 | the list URL is the API base and the endpoint, then `?`, then the encoded list query |
| EinvoiceClient.PaginatedUrlReadsBack | pyAnaf/einvoice_api.py:195-200 | the paginated URL reads back as the API base, the endpoint and the paginated query |
| EinvoiceClient.UploadUrlReadsBack | pyAnaf/einvoice_api.py:235-252 | the upload URL reads back as the API base, the endpoint and the upload query |
| EinvoiceClient.EinvoiceApi.constructor | pyAnaf/einvoice_api.py:112-122 | the base URL, the two tokens and a fresh OAuth helper with the client's credentials |
| EinvoiceClient.EinvoiceApi.SetUrl | pyAnaf/einvoice_api.py:124-125 | replaces the base URL only |
| EinvoiceClient.EinvoiceApi.RefreshAccessToken | pyAnaf/einvoice_api.py:139-142 | posts the refresh form carrying the current refresh token, and the tokens become what the refresh reply gives, as `RefreshTokens` states |
| EinvoiceClient.EinvoiceApi.EnsureTokenValid | pyAnaf/einvoice_api.py:144-146 | refreshes exactly when the validity check answers True |
| EinvoiceClient.EinvoiceApi.ListMessages | pyAnaf/einvoice_api.py:148-182 | the token check first; on failure nothing is sent; otherwise the list URL with the current token, and the reply classified |
| EinvoiceClient.EinvoiceApi.ListMessagesPaginated | pyAnaf/einvoice_api.py:184-222 | the same for the paginated URL |
| EinvoiceClient.EinvoiceApi.UploadInvoice | pyAnaf/einvoice_api.py:224-275 | the token check, then the XML posted to the upload URL with the current token; a 200 reply gives its root's attributes |
| EinvoiceClient.UploadOutcome | pyAnaf/einvoice_api.py:258-273 | an upload succeeds exactly on status 200, with the reply root's attributes |

## Left out

- The network, the JWT library and the clock are parameters. Each call is given the reply its request receives, the outcome of decoding the access token, and the current time in whole seconds. Sub-second precision of the expiry time is not modelled.
- EinvoiceClient.IsTokenValid: a decoded `exp` is an integer or absent. A non-numeric or out-of-range `exp` makes `datetime.fromtimestamp` raise `TypeError`, `ValueError` or `OverflowError` at einvoice_api.py:130, which `is_token_valid` does not catch; that case is not modelled.
- The model assumes `pyAnaf.api` defines `AnafResponseError`. As written, einvoice_api.py line 12 imports it from `pyAnaf.api`, which defines only `AnafError` (api.py line 29), so importing the module raises `ImportError`. The client's failures are their own kind, `ResponseError`.
- EinvoiceClient.Classify: the urllib opener raises `HTTPError` for every status outside 2xx, and the `except Exception` around `urlopen` turns it into the call's prefix followed by `HTTP Error <code>: <reason>`. A non-2xx reply therefore never reaches the status checks, and the "Unauthorized" branches (einvoice_api.py lines 174-178, 214-218, 264-268) are dead code. The model classifies the status it is given, so such replies should be given as `Raised("HTTP Error <code>: <reason>")`; the model does not force this.
- EinvoiceClient.ClassifyAgreesWithTokenOutcome: compares the two classifications on every status, including the 401 and 403 that urllib never lets through.
- EinvoiceClient.EinvoiceApi.RefreshAccessToken: uses the corrected refresh (`AnafAuth.RefreshAnafToken`). As written, a refresh always raises and both tokens stay as they were (`ExpiredTokenRaisesAsWritten`).
- EinvoiceClient.EinvoiceApi.EnsureTokenValid: uses the corrected refresh. As written, an expired token makes it raise with both tokens kept.
- EinvoiceClient.EinvoiceApi.ListMessages: uses the corrected refresh. As written, a call with an expired token raises before any request is sent.
- EinvoiceClient.EinvoiceApi.ListMessagesPaginated: uses the corrected refresh, as `ListMessages` does.
- EinvoiceClient.EinvoiceApi.UploadInvoice: uses the corrected refresh, as `ListMessages` does.
- CuiLookup.Anaf.AddEndpoint: the target has no default. `addEndpoint(url)` with `target='sync'` is `AddEndpoint(url, "sync")`.
- EinvoiceClient.ListParams: a missing `days` is the default 30. An explicit `days=None` in the source writes `zile=None` into the URL, which the model does not represent.
- `urlencode`'s percent-escaping is not modelled. Queries are written as raw `key=value` pairs, as `get_auth_url` writes them. The read-back lemmas therefore require values without `&` (and keys without `=`).
- JSON text is not modelled: `json.loads` and `json.dumps` as text transformations. Replies are given already decoded, and JSON numbers are integers (no floats).
- EinvoiceClient.EinvoiceApi.ListMessages: returns the reply body's text itself, not its `json.dumps` quoting (a JSON string literal of the text).
- EinvoiceClient.EinvoiceApi.ListMessagesPaginated: the same as `ListMessages`.
- EinvoiceClient.EinvoiceApi.UploadInvoice: XML parsing of the reply is not modelled; the reply is given as an element tree. The result is the attribute map, not its `json.dumps` text.
- HTTP headers other than the bearer token are not modelled. The upload's `Content-Type: text/plain` is left out.
- The UTF-8 encoding of the request bodies is not modelled.
- Configuration is not modelled. The `ConfigParser` file and the `PYANAF_TESTING` branch are left out; the testing URL is overwritten at once. The configured URLs are constructor parameters.
- Logging and the `__str__` methods of the records are not modelled.
- ElementTree serialisation and namespaces are not modelled. The document is the element tree itself.
- XMLBuilder's in-place mutation of shared `Element` objects is not modelled. Each sub-element is built as a value before it is attached. Since the builder never reads the tree before it is finished, the final tree is the same.
- Party and invoice fields are strings or integers. A `None` field is modelled as the empty string, which is falsy in the same way. Other Python types, and floats for amounts, are left out.
- CuiLookup.Anaf.Query: returns the payload, where the code prints it.
- CuiLookup.Anaf.Query: the network request the source never issues is left out.
- CuiLookup.Batch: Python's key identity between `True` and `1` is modelled by converting a boolean CUI to 0 or 1. The `datetime.datetime` subclass of `date` is not modelled.
- CuiLookup.IntOf: does not model `int()` on strings with underscores, non-ASCII digits or non-ASCII whitespace.
- Text.Strip: whitespace is the six characters space, tab, line feed, carriage return, vertical tab and form feed. Python's `strip()` and `int()` also skip `\x1c`-`\x1f` and non-ASCII spaces, which are not modelled.
- CuiLookup.IntOf: does not model objects with an `__int__` method.
- CuiLookup.IntOf: does not model `int()` on bytes. `int(b"12")` gives 12 in Python, but a bytes value is `PyOther`, which the model rejects.
- CuiLookup.IntOf: does not model the float infinities and NaN. `int()` raises on them, so `setLimit` fails, but a `PyFloat` holds a real number and always converts.
- JsonData.Elements: iterating a non-empty dictionary or string yields strings. The model reports that as the `TypeError` the message constructor then raises, with a simplified message.
- Python's `TypeError` messages are shortened to fixed strings.

## Findings

| source | as written | input that shows it | evidently intended | confidence | as-written member | corrected member |
|---|---|---|---|---|---|---|
| pyAnaf/einvoice_api.py:106 | `refresh_anaf_token` hands the response object, not its body, to `json.loads`, which raises a TypeError on every successful reply | a refresh reply with status 200 and body `{"access_token": "a", "refresh_token": "r"}` | read the body, as `get_anaf_token` does at line 82, and return the decoded tokens | not executed | EinvoiceClient.RefreshOutcomeAsWritten | EinvoiceClient.AnafAuth.RefreshAnafToken |
