/**
 * The records the client builds from decoded server replies: a VAT
 * registry entry, an e-invoice message, a page of the message list and a
 * paginated listing.  Each constructor projects fields out of the reply
 * in the order the source reads them, so the first missing key is the
 * one reported (EntryReportsFirstFailedRead, MessageReportsFirstMissingKey).
 */
module ResultModels {
  import opened Wrappers
  import opened JsonData

  /** `AnafEinvoiceMessage.MessageType`: names for two server strings. */
  const Accepted := "FACTURA TRIMISA"
  const Error := "ERORI FACTURA"

  datatype AnafResultEntry = AnafResultEntry(
    cui: Json, date: Json, isActive: bool, name: Json, address: Json,
    vatEligible: Json, vatSplitEligible: Json, vatCollectionEligible: Json)

  /** The sub-object and key of each read `AnafResultEntry` makes, in source order. */
  const EntryPaths := [
    ("date_generale", "cui"), ("date_generale", "data"), ("stare_inactiv", "statusInactivi"),
    ("date_generale", "denumire"), ("date_generale", "adresa"), ("inregistrare_scop_Tva", "scpTVA"),
    ("inregistrare_SplitTVA", "statusSplitTVA"), ("inregistrare_RTVAI", "statusTvaIncasare")]

  /** The sub-objects and keys `AnafResultEntry` reads, in source order. */
  predicate HasEntryFields(result: Json) {
    Get2(result, "date_generale", "cui").Ok? &&
    Get2(result, "date_generale", "data").Ok? &&
    Get2(result, "stare_inactiv", "statusInactivi").Ok? &&
    Get2(result, "date_generale", "denumire").Ok? &&
    Get2(result, "date_generale", "adresa").Ok? &&
    Get2(result, "inregistrare_scop_Tva", "scpTVA").Ok? &&
    Get2(result, "inregistrare_SplitTVA", "statusSplitTVA").Ok? &&
    Get2(result, "inregistrare_RTVAI", "statusTvaIncasare").Ok?
  }

  /**
   * `AnafResultEntry(result)`: copies the general data and the three VAT
   * flags; the company is active exactly when its inactivity status is falsy.
   */
  function ResultEntryOf(result: Json): (r: Result<AnafResultEntry, Failure>)
    ensures r.Ok? <==> HasEntryFields(result)
    ensures r.Ok? ==>
      var general := result.fields["date_generale"].fields;
      r.value.cui == general["cui"] && r.value.date == general["data"] &&
      r.value.name == general["denumire"] && r.value.address == general["adresa"] &&
      (r.value.isActive <==> !Truthy(result.fields["stare_inactiv"].fields["statusInactivi"])) &&
      r.value.vatEligible == result.fields["inregistrare_scop_Tva"].fields["scpTVA"] &&
      r.value.vatSplitEligible == result.fields["inregistrare_SplitTVA"].fields["statusSplitTVA"] &&
      r.value.vatCollectionEligible == result.fields["inregistrare_RTVAI"].fields["statusTvaIncasare"]
  {
    var cui :- Get2(result, "date_generale", "cui");
    var date :- Get2(result, "date_generale", "data");
    var inactive :- Get2(result, "stare_inactiv", "statusInactivi");
    var name :- Get2(result, "date_generale", "denumire");
    var address :- Get2(result, "date_generale", "adresa");
    var vat :- Get2(result, "inregistrare_scop_Tva", "scpTVA");
    var split :- Get2(result, "inregistrare_SplitTVA", "statusSplitTVA");
    var collection :- Get2(result, "inregistrare_RTVAI", "statusTvaIncasare");
    Ok(AnafResultEntry(cui, date, !Truthy(inactive), name, address, vat, split, collection))
  }

  /** A reply missing a field fails with the failure of the first read that misses. */
  lemma EntryReportsFirstFailedRead(result: Json, i: nat)
    requires i < |EntryPaths| && Get2(result, EntryPaths[i].0, EntryPaths[i].1).Err?
    requires forall j :: 0 <= j < i ==> Get2(result, EntryPaths[j].0, EntryPaths[j].1).Ok?
    ensures ResultEntryOf(result) == Err(Get2(result, EntryPaths[i].0, EntryPaths[i].1).error)
  {
    if i > 0 { assert Get2(result, EntryPaths[0].0, EntryPaths[0].1).Ok?; }
    if i > 1 { assert Get2(result, EntryPaths[1].0, EntryPaths[1].1).Ok?; }
    if i > 2 { assert Get2(result, EntryPaths[2].0, EntryPaths[2].1).Ok?; }
    if i > 3 { assert Get2(result, EntryPaths[3].0, EntryPaths[3].1).Ok?; }
    if i > 4 { assert Get2(result, EntryPaths[4].0, EntryPaths[4].1).Ok?; }
    if i > 5 { assert Get2(result, EntryPaths[5].0, EntryPaths[5].1).Ok?; }
    if i > 6 { assert Get2(result, EntryPaths[6].0, EntryPaths[6].1).Ok?; }
  }

  /** The smallest registry reply that describes `e`. */
  function ResultEntryJson(e: AnafResultEntry): Json {
    Obj(map[
      "date_generale" := Obj(map["cui" := e.cui, "data" := e.date, "denumire" := e.name, "adresa" := e.address]),
      "stare_inactiv" := Obj(map["statusInactivi" := Bool(!e.isActive)]),
      "inregistrare_scop_Tva" := Obj(map["scpTVA" := e.vatEligible]),
      "inregistrare_SplitTVA" := Obj(map["statusSplitTVA" := e.vatSplitEligible]),
      "inregistrare_RTVAI" := Obj(map["statusTvaIncasare" := e.vatCollectionEligible])])
  }

  /** Every entry is read back from its reply, the activity flag included. */
  lemma ResultEntryRoundTrip(e: AnafResultEntry)
    ensures ResultEntryOf(ResultEntryJson(e)) == Ok(e)
  {
    var j := ResultEntryJson(e);
    assert HasEntryFields(j);
  }

  /** The `id`, `tip`, `data_creare`, `cif`, `id_solicitare` and `detalii` of a message. */
  datatype AnafEinvoiceMessage = AnafEinvoiceMessage(
    id: Json, messageType: Json, date: Json, cif: Json, requestId: Json, details: Json)

  const MessageKeys := ["id", "tip", "data_creare", "cif", "id_solicitare", "detalii"]

  /**
   * `AnafEinvoiceMessage(result)`: a one-to-one copy of six keys, any of
   * which missing is a failure.  The type is kept as the server sent it,
   * whether or not it is one of the two named strings.
   */
  function MessageOf(result: Json): (r: Result<AnafEinvoiceMessage, Failure>)
    ensures r.Ok? <==> result.Obj? && forall k :: k in MessageKeys ==> k in result.fields
    ensures r.Ok? ==>
      r.value == AnafEinvoiceMessage(
        result.fields["id"], result.fields["tip"], result.fields["data_creare"],
        result.fields["cif"], result.fields["id_solicitare"], result.fields["detalii"])
    ensures !result.Obj? ==> r == Err(NotSubscriptable)
  {
    var id :- Get(result, "id");
    var messageType :- Get(result, "tip");
    var date :- Get(result, "data_creare");
    var cif :- Get(result, "cif");
    var requestId :- Get(result, "id_solicitare");
    var details :- Get(result, "detalii");
    Ok(AnafEinvoiceMessage(id, messageType, date, cif, requestId, details))
  }

  /** A message missing keys fails with a `KeyError` for the first missing one. */
  lemma MessageReportsFirstMissingKey(result: Json, i: nat)
    requires result.Obj? && i < |MessageKeys| && MessageKeys[i] !in result.fields
    requires forall j :: 0 <= j < i ==> MessageKeys[j] in result.fields
    ensures MessageOf(result) == Err(KeyError(MessageKeys[i]))
  {
    if i > 0 { assert MessageKeys[0] in result.fields; }
    if i > 1 { assert MessageKeys[1] in result.fields; }
    if i > 2 { assert MessageKeys[2] in result.fields; }
    if i > 3 { assert MessageKeys[3] in result.fields; }
    if i > 4 { assert MessageKeys[4] in result.fields; }
  }

  function MessageJson(m: AnafEinvoiceMessage): Json {
    Obj(map["id" := m.id, "tip" := m.messageType, "data_creare" := m.date,
            "cif" := m.cif, "id_solicitare" := m.requestId, "detalii" := m.details])
  }

  lemma MessageRoundTrip(m: AnafEinvoiceMessage)
    ensures MessageOf(MessageJson(m)) == Ok(m)
  {
  }

  /**
   * `[AnafEinvoiceMessage(entry) for entry in items]`: one message per
   * item, in the same order; the first item that is not a message is the
   * failure raised.
   */
  function MessagesOf(items: seq<Json>): (r: Result<seq<AnafEinvoiceMessage>, Failure>)
    ensures r.Ok? <==> forall i :: 0 <= i < |items| ==> MessageOf(items[i]).Ok?
    ensures r.Ok? ==>
      |r.value| == |items| && forall i :: 0 <= i < |items| ==> MessageOf(items[i]) == Ok(r.value[i])
    ensures r.Err? ==>
      exists i :: 0 <= i < |items| && MessageOf(items[i]) == Err(r.error) &&
        forall j :: 0 <= j < i ==> MessageOf(items[j]).Ok?
    decreases |items|
  {
    if |items| == 0 then Ok([])
    else
      var first :- MessageOf(items[0]);
      var rest :- MessagesOf(items[1..]);
      Ok([first] + rest)
  }

  /** `result.get("mesaje", [])` turned into messages. */
  function MessagesField(result: Json): (r: Result<seq<AnafEinvoiceMessage>, Failure>)
    requires result.Obj?
    ensures "mesaje" !in result.fields ==> r == Ok([])
    ensures "mesaje" in result.fields && result.fields["mesaje"].Arr? ==>
      r == MessagesOf(result.fields["mesaje"].items)
  {
    var listed := Field(result, "mesaje", Arr([]));
    var items :- Elements(listed);
    MessagesOf(items)
  }

  datatype ListMessagesEntry = ListMessagesEntry(
    title: Json, error: Json, serial: Json, cui: Json, messages: seq<AnafEinvoiceMessage>)

  /**
   * `AnafEinvoiceListMessagesEntry(result)`: `titlu` is required, `eroare`,
   * `serial` and `cui` default to None, and the messages keep the order and
   * number of `mesaje` (none when the key is absent).
   */
  function ListMessagesEntryOf(result: Json): (r: Result<ListMessagesEntry, Failure>)
    ensures !result.Obj? ==> r == Err(NotSubscriptable)
    ensures result.Obj? && "titlu" !in result.fields ==> r == Err(KeyError("titlu"))
    ensures result.Obj? && "titlu" in result.fields ==>
      r == (match MessagesField(result)
            case Ok(messages) => Ok(ListMessagesEntry(
              result.fields["titlu"], Field(result, "eroare", Null), Field(result, "serial", Null),
              Field(result, "cui", Null), messages))
            case Err(e) => Err(e))
  {
    var title :- Get(result, "titlu");
    var error := Field(result, "eroare", Null);
    var serial := Field(result, "serial", Null);
    var cui := Field(result, "cui", Null);
    var messages :- MessagesField(result);
    Ok(ListMessagesEntry(title, error, serial, cui, messages))
  }

  /** The value `result.get(key, default)` gives on a dictionary. */
  function Field(result: Json, key: string, default: Json): Json
    requires result.Obj?
  {
    if key in result.fields then result.fields[key] else default
  }

  datatype PaginatedMessages = PaginatedMessages(
    title: Json, error: Json, countInPage: Json, limit: Json, count: Json,
    totalPages: Json, currentPage: Json, serial: Json, cui: Json,
    messages: seq<AnafEinvoiceMessage>)

  /**
   * `AnafEinvoicePaginatedMessages(result)`: as the list entry, with the
   * page counters defaulting to 0 and the page size to 500.
   */
  function PaginatedMessagesOf(result: Json): (r: Result<PaginatedMessages, Failure>)
    ensures !result.Obj? ==> r == Err(NotSubscriptable)
    ensures result.Obj? && "titlu" !in result.fields ==> r == Err(KeyError("titlu"))
    ensures result.Obj? && "titlu" in result.fields ==>
      r == (match MessagesField(result)
            case Ok(messages) => Ok(PaginatedMessages(
              result.fields["titlu"], Field(result, "eroare", Null),
              Field(result, "numar_ingregistrari_in_pagina", Int(0)),
              Field(result, "numar_total_inregistrari_per_pagina", Int(500)),
              Field(result, "numar_total_inregistrari", Int(0)),
              Field(result, "numar_total_pagini", Int(0)),
              Field(result, "index_pagina_curenta", Int(0)),
              Field(result, "serial", Null), Field(result, "cui", Null), messages))
            case Err(e) => Err(e))
  {
    var title :- Get(result, "titlu");
    var error := Field(result, "eroare", Null);
    var countInPage := Field(result, "numar_ingregistrari_in_pagina", Int(0));
    var limit := Field(result, "numar_total_inregistrari_per_pagina", Int(500));
    var count := Field(result, "numar_total_inregistrari", Int(0));
    var totalPages := Field(result, "numar_total_pagini", Int(0));
    var currentPage := Field(result, "index_pagina_curenta", Int(0));
    var serial := Field(result, "serial", Null);
    var cui := Field(result, "cui", Null);
    var messages :- MessagesField(result);
    Ok(PaginatedMessages(title, error, countInPage, limit, count, totalPages, currentPage, serial, cui, messages))
  }

  function ListMessagesEntryJson(e: ListMessagesEntry): Json {
    Obj(map["titlu" := e.title, "eroare" := e.error, "serial" := e.serial, "cui" := e.cui,
            "mesaje" := Arr(MessagesJson(e.messages))])
  }

  function MessagesJson(ms: seq<AnafEinvoiceMessage>): (items: seq<Json>)
    ensures |items| == |ms|
  {
    seq(|ms|, i requires 0 <= i < |ms| => MessageJson(ms[i]))
  }

  /** A list of messages is read back item by item, in order. */
  lemma {:induction false} MessagesRoundTrip(ms: seq<AnafEinvoiceMessage>)
    ensures MessagesOf(MessagesJson(ms)) == Ok(ms)
    decreases |ms|
  {
    if |ms| > 0 {
      MessageRoundTrip(ms[0]);
      MessagesRoundTrip(ms[1..]);
      assert MessagesJson(ms)[1..] == MessagesJson(ms[1..]);
      assert ms == [ms[0]] + ms[1..];
    }
  }

  lemma MessagesFieldOf(result: Json, ms: seq<AnafEinvoiceMessage>)
    requires result.Obj? && "mesaje" in result.fields && result.fields["mesaje"] == Arr(MessagesJson(ms))
    ensures MessagesField(result) == Ok(ms)
  {
    MessagesRoundTrip(ms);
  }

  lemma ListMessagesEntryRoundTrip(e: ListMessagesEntry)
    ensures ListMessagesEntryOf(ListMessagesEntryJson(e)) == Ok(e)
  {
    MessagesFieldOf(ListMessagesEntryJson(e), e.messages);
  }

  /**
   * A paginated listing reads the same title, error, serial, CUI and
   * messages as a plain list entry, and fails exactly when and as it does.
   */
  lemma PaginatedAgreesWithListEntry(result: Json)
    ensures PaginatedMessagesOf(result).Ok? <==> ListMessagesEntryOf(result).Ok?
    ensures PaginatedMessagesOf(result).Err? ==>
      PaginatedMessagesOf(result).error == ListMessagesEntryOf(result).error
    ensures PaginatedMessagesOf(result).Ok? ==>
      var p := PaginatedMessagesOf(result).value;
      var e := ListMessagesEntryOf(result).value;
      p.title == e.title && p.error == e.error && p.serial == e.serial &&
      p.cui == e.cui && p.messages == e.messages
  {
  }

  /** A page that only carries its title: no error, empty counters, the default page size of 500. */
  lemma PaginatedDefaults(title: Json)
    ensures PaginatedMessagesOf(Obj(map["titlu" := title])) ==
      Ok(PaginatedMessages(title, Null, Int(0), Int(500), Int(0), Int(0), Int(0), Null, Null, []))
  {
  }
}
