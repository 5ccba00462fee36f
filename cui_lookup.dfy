/**
 * The VAT-payer lookup batch (`Anaf`): a table from fiscal code (CUI) to
 * query date that keeps insertion order, a size limit, type validation of
 * its inputs, and the table of web-service endpoints shared by every
 * instance.
 */
module CuiLookup {
  import opened Wrappers
  import opened Text

  // ---------------------------------------------------------------------
  // Dates
  // ---------------------------------------------------------------------

  /** A `datetime.date`. */
  datatype Date = Date(year: nat, month: nat, day: nat)

  /**
   * `date.isoformat()`: `%04d-%02d-%02d`.  For every date Python can hold
   * (year below 10000, month and day below 100) it is ten characters with
   * dashes at 4 and 7.
   */
  function IsoFormat(d: Date): (s: string)
    ensures |s| >= 10
    ensures d.year < 10000 && d.month < 100 && d.day < 100 ==> |s| == 10 && s[4] == '-' && s[7] == '-'
  {
    var y := ZeroPad(NatToString(d.year), 4);
    var m := ZeroPad(NatToString(d.month), 2);
    var dd := ZeroPad(NatToString(d.day), 2);
    DashedShape(y, m, dd);
    IsoWidths(d);
    y + "-" + m + "-" + dd
  }

  /** The three padded fields of a date Python can hold have their nominal widths. */
  lemma IsoWidths(d: Date)
    ensures d.year < 10000 && d.month < 100 && d.day < 100 ==>
      |ZeroPad(NatToString(d.year), 4)| == 4 && |ZeroPad(NatToString(d.month), 2)| == 2 &&
      |ZeroPad(NatToString(d.day), 2)| == 2
  {
    if d.year < 10000 && d.month < 100 && d.day < 100 {
      assert Pow10(2) == 100 && Pow10(4) == 10000;
      PaddedWidth(d.year, 4);
      PaddedWidth(d.month, 2);
      PaddedWidth(d.day, 2);
    }
  }

  lemma DashedShape(y: string, m: string, dd: string)
    ensures |y + "-" + m + "-" + dd| == |y| + |m| + |dd| + 2
    ensures |y| == 4 && |m| == 2 && |dd| == 2 ==> (y + "-" + m + "-" + dd)[4] == '-' && (y + "-" + m + "-" + dd)[7] == '-'
  {
  }

  /** Reads a `YYYY-MM-DD` string back. */
  function ParseIsoDate(s: string): Option<Date> {
    var parts := Split(s, '-');
    if |parts| != 3 then None
    else
      match (ParseNat(parts[0]), ParseNat(parts[1]), ParseNat(parts[2]))
      case (Some(y), Some(m), Some(d)) => Some(Date(y, m, d))
      case _ => None
  }

  lemma PaddedHasNoDash(n: nat, width: nat)
    ensures '-' !in ZeroPad(NatToString(n), width)
  {
    var s := ZeroPad(NatToString(n), width);
    PaddedRoundTrip(n, width);
    assert forall i :: 0 <= i < |s| ==> IsDigit(s[i]);
  }

  lemma SplitThree(s: string, a: string, b: string, c: string, sep: char)
    requires sep !in a && sep !in b && sep !in c
    requires s == a + [sep] + (b + [sep] + c)
    ensures Split(s, sep) == [a, b, c]
  {
    SplitJoin(b, c, sep);
    SplitNoSep(c, sep);
    SplitJoin(a, b + [sep] + c, sep);
  }

  /** Three dash-free pieces joined with dashes split back into those pieces. */
  lemma SplitDashes(a: string, b: string, c: string)
    requires '-' !in a && '-' !in b && '-' !in c
    ensures Split(a + "-" + b + "-" + c, '-') == [a, b, c]
  {
    assert a + "-" + b + "-" + c == a + ['-'] + (b + ['-'] + c);
    SplitThree(a + "-" + b + "-" + c, a, b, c, '-');
  }

  /** The date sent in a query reads back as the stored date. */
  lemma IsoRoundTrip(d: Date)
    ensures ParseIsoDate(IsoFormat(d)) == Some(d)
  {
    var y := ZeroPad(NatToString(d.year), 4);
    var m := ZeroPad(NatToString(d.month), 2);
    var dd := ZeroPad(NatToString(d.day), 2);
    assert Split(IsoFormat(d), '-') == [y, m, dd] by {
      PaddedHasNoDash(d.year, 4);
      PaddedHasNoDash(d.month, 2);
      PaddedHasNoDash(d.day, 2);
      SplitDashes(y, m, dd);
    }
    assert ParseNat(y) == Some(d.year) && ParseNat(m) == Some(d.month) && ParseNat(dd) == Some(d.day) by {
      PaddedRoundTrip(d.year, 4);
      PaddedRoundTrip(d.month, 2);
      PaddedRoundTrip(d.day, 2);
    }
    ParseParts(IsoFormat(d), y, m, dd, d);
  }

  lemma ParseParts(s: string, y: string, m: string, dd: string, d: Date)
    requires Split(s, '-') == [y, m, dd]
    requires ParseNat(y) == Some(d.year) && ParseNat(m) == Some(d.month) && ParseNat(dd) == Some(d.day)
    ensures ParseIsoDate(s) == Some(d)
  {
  }

  // ---------------------------------------------------------------------
  // Python values handed to the API
  // ---------------------------------------------------------------------

  /** The Python values a caller may pass where a CUI, a date or a limit is expected. */
  datatype PyValue =
    | PyInt(i: int)
    | PyBool(b: bool)
    | PyFloat(f: real)
    | PyStr(s: string)
    | PyDate(d: Date)
    | PyNone
    | PyOther

  datatype AnafError = AnafError(message: string)

  const CuiTypeError := AnafError("CUI should be integer")
  const DateTypeError := AnafError("Date should be of type datetime.date")
  const TargetError := AnafError("Invalid target for endpoint. Must be one of 'sync' or 'async'")
  const LimitTypeError := AnafError("Limit should be an integer")

  const TooManyPrefix := "Too many CUIs to be queried. Should limit to "

  /** The error for a batch over the limit, with the limit rendered by `%d`. */
  function TooManyCuis(limit: int): (e: AnafError)
    ensures |e.message| > |TooManyPrefix| && e.message[..|TooManyPrefix|] == TooManyPrefix
    ensures ParseInt(e.message[|TooManyPrefix|..]) == Some(limit)
  {
    IntRoundTrip(limit);
    assert (TooManyPrefix + IntToString(limit))[|TooManyPrefix|..] == IntToString(limit);
    AnafError(TooManyPrefix + IntToString(limit))
  }

  /**
   * `__validate_cui`: `isinstance(cui, int)`.  A bool is an int in Python,
   * so it passes, and as a dictionary key it is the number 0 or 1.
   */
  function ValidateCui(v: PyValue): (r: Result<int, AnafError>)
    ensures r.Ok? <==> v.PyInt? || v.PyBool?
    ensures r.Err? ==> r.error == CuiTypeError
  {
    match v
    case PyInt(i) => Ok(i)
    case PyBool(b) => Ok(if b then 1 else 0)
    case _ => Err(CuiTypeError)
  }

  /** `__validate_date`: `isinstance(date, datetime.date)`. */
  function ValidateDate(v: PyValue): (r: Result<Date, AnafError>)
    ensures r.Ok? <==> v.PyDate?
    ensures r.Err? ==> r.error == DateTypeError
  {
    if v.PyDate? then Ok(v.d) else Err(DateTypeError)
  }

  /** A missing date (`None`) stands for today. */
  function DateArg(v: PyValue, today: Date): (r: PyValue)
    ensures v.PyNone? ==> ValidateDate(r) == Ok(today)
    ensures !v.PyNone? ==> r == v
  {
    if v.PyNone? then PyDate(today) else v
  }

  /** `int(x)` for a float: truncation toward zero. */
  function Truncate(x: real): (n: int)
    ensures x >= 0.0 ==> n as real <= x < n as real + 1.0
    ensures x < 0.0 ==> n as real - 1.0 < x <= n as real
  {
    if x >= 0.0 then x.Floor else -((-x).Floor)
  }

  /**
   * `int(x)`: an int is itself, a bool is 0 or 1, a float is truncated, a
   * string is read as an optionally signed decimal number after stripping
   * surrounding whitespace; anything else cannot be converted.
   */
  function IntOf(v: PyValue): (r: Option<int>)
    ensures v.PyInt? ==> r == Some(v.i)
    ensures v.PyBool? ==> r == Some(if v.b then 1 else 0)
    ensures v.PyFloat? ==> r == Some(Truncate(v.f))
    ensures (v.PyDate? || v.PyNone? || v.PyOther?) ==> r.None?
    ensures v.PyStr? ==> r == ParseInt(Strip(v.s))
  {
    match v
    case PyInt(i) => Some(i)
    case PyBool(b) => Some(if b then 1 else 0)
    case PyFloat(f) => Some(Truncate(f))
    case PyStr(s) => ParseInt(Strip(s))
    case _ => None
  }

  lemma {:induction false} LeadingSpacesOf(ws: string, t: string)
    requires forall i :: 0 <= i < |ws| ==> IsSpace(ws[i])
    requires |t| > 0 && !IsSpace(t[0])
    ensures LeadingSpaces(ws + t) == |ws|
  {
    if |ws| > 0 {
      assert (ws + t)[1..] == ws[1..] + t;
      LeadingSpacesOf(ws[1..], t);
    }
  }

  lemma {:induction false} TrimRightOf(t: string, ws: string)
    requires forall i :: 0 <= i < |ws| ==> IsSpace(ws[i])
    requires |t| > 0 && !IsSpace(t[|t| - 1])
    ensures TrimRight(t + ws) == t
  {
    if |ws| == 0 {
      assert t + ws == t;
    } else {
      assert (t + ws)[..|t + ws| - 1] == t + ws[..|ws| - 1];
      TrimRightOf(t, ws[..|ws| - 1]);
    }
  }

  /** `int()` reads back what `str()` wrote, whatever whitespace surrounds it. */
  lemma IntOfRendered(i: int, before: string, after: string)
    requires forall k :: 0 <= k < |before| ==> IsSpace(before[k])
    requires forall k :: 0 <= k < |after| ==> IsSpace(after[k])
    ensures IntOf(PyStr(before + IntToString(i) + after)) == Some(i)
  {
    var t := IntToString(i);
    assert !IsSpace(t[0]) && !IsSpace(t[|t| - 1]) by {
      if i < 0 {
        assert t[1..] == NatToString(-i);
        assert t[|t| - 1] == NatToString(-i)[|NatToString(-i)| - 1];
        assert IsDigit(NatToString(-i)[|NatToString(-i)| - 1]);
      } else {
        assert IsDigit(t[0]) && IsDigit(t[|t| - 1]);
      }
    }
    var s := before + t + after;
    assert s == before + (t + after);
    LeadingSpacesOf(before, t + after);
    assert s[|before|..] == t + after;
    TrimRightOf(t, after);
    IntRoundTrip(i);
  }

  /** A float with no fractional part converts to itself. */
  lemma IntOfWholeFloat(i: int)
    ensures IntOf(PyFloat(i as real)) == Some(i)
  {
  }

  // ---------------------------------------------------------------------
  // The batch: an insertion-ordered dictionary from CUI to date
  // ---------------------------------------------------------------------

  /**
   * `self.cuis`: `dates` holds the entries, `order` the keys in the order
   * they were first inserted (Python dictionaries keep insertion order and
   * an overwrite keeps the key's place).
   */
  datatype Batch = Batch(order: seq<int>, dates: map<int, Date>) {
    predicate Valid() {
      (forall i, j :: 0 <= i < j < |order| ==> order[i] != order[j]) &&
      (forall k :: k in dates ==> k in order) &&
      (forall i :: 0 <= i < |order| ==> order[i] in dates)
    }

    /** The payload entry of the `i`-th CUI: the CUI and its date. */
    function Entry(i: nat): (e: QueryEntry)
      requires i < |order| && order[i] in dates
      ensures e.cui == order[i] && e.date == dates[order[i]]
    {
      QueryEntry(order[i], dates[order[i]])
    }

    /** The payload entries of the first `n` CUIs, in insertion order. */
    function Entries(n: nat): (es: seq<QueryEntry>)
      requires n <= |order| && forall i :: 0 <= i < |order| ==> order[i] in dates
      ensures |es| == n
      decreases n
    {
      if n == 0 then [] else Entries(n - 1) + [Entry(n - 1)]
    }

    /** `len(self.cuis)`. */
    function Size(): nat { |order| }

    /** `self.cuis[cui] = date`. */
    function Put(cui: int, date: Date): (b: Batch)
      ensures b.dates == dates[cui := date]
      ensures cui in dates ==> b.order == order
      ensures cui !in dates ==> b.order == order + [cui]
    {
      Batch(if cui in dates then order else order + [cui], dates[cui := date])
    }
  }

  const EmptyBatch := Batch([], map[])

  /** Every insertion keeps the batch well formed. */
  lemma PutValid(b: Batch, cui: int, date: Date)
    requires b.Valid()
    ensures b.Put(cui, date).Valid()
  {
  }

  /**
   * Inserting an existing CUI overwrites its date and leaves the size and
   * the order unchanged; a new CUI goes to the end.
   */
  lemma PutSize(b: Batch, cui: int, date: Date)
    requires b.Valid()
    ensures cui in b.dates ==> b.Put(cui, date).Size() == b.Size()
    ensures cui !in b.dates ==> b.Put(cui, date).Size() == b.Size() + 1
    ensures b.Put(cui, date).dates[cui] == date
    ensures forall k :: k in b.dates && k != cui ==> b.Put(cui, date).dates[k] == b.dates[k]
  {
  }

  /** The last write wins. */
  lemma LastWriteWins(b: Batch, cui: int, first: Date, second: Date)
    ensures b.Put(cui, first).Put(cui, second) == b.Put(cui, second)
  {
  }

  lemma {:induction false} DistinctCard(s: seq<int>)
    requires forall i, j :: 0 <= i < j < |s| ==> s[i] != s[j]
    ensures |set x | x in s| == |s|
  {
    if |s| > 0 {
      var init := s[..|s| - 1];
      DistinctCard(init);
      assert (set x | x in s) == (set x | x in init) + {s[|s| - 1]};
      assert s[|s| - 1] !in (set x | x in init);
    }
  }

  /** `Size` is the number of keys, as `len` counts them. */
  lemma SizeIsKeyCount(b: Batch)
    requires b.Valid()
    ensures |b.dates.Keys| == b.Size()
  {
    DistinctCard(b.order);
    assert forall k :: k in b.dates.Keys <==> k in b.order;
    assert b.dates.Keys == set x | x in b.order;
  }

  /** Inserts `cuis` in order, all with the same date. */
  function PutAll(b: Batch, cuis: seq<int>, date: Date): Batch
    decreases |cuis|
  {
    if cuis == [] then b else PutAll(b.Put(cuis[0], date), cuis[1..], date)
  }

  lemma {:induction false} PutAllSnoc(b: Batch, cuis: seq<int>, cui: int, date: Date)
    ensures PutAll(b, cuis + [cui], date) == PutAll(b, cuis, date).Put(cui, date)
    decreases |cuis|
  {
    if cuis == [] {
      assert cuis + [cui] == [cui];
    } else {
      assert (cuis + [cui])[1..] == cuis[1..] + [cui];
      PutAllSnoc(b.Put(cuis[0], date), cuis[1..], cui, date);
    }
  }

  /** A batch insertion keeps the batch well formed. */
  lemma {:induction false} PutAllValid(b: Batch, cuis: seq<int>, date: Date)
    requires b.Valid()
    ensures PutAll(b, cuis, date).Valid()
    decreases |cuis|
  {
    if cuis != [] {
      PutValid(b, cuis[0], date);
      PutAllValid(b.Put(cuis[0], date), cuis[1..], date);
    }
  }

  /**
   * After a batch insertion every inserted CUI has the new date and every
   * other CUI keeps its old one.
   */
  lemma {:induction false} PutAllDates(b: Batch, cuis: seq<int>, date: Date)
    ensures var r := PutAll(b, cuis, date);
      (forall c :: c in cuis ==> c in r.dates && r.dates[c] == date) &&
      (forall k :: k !in cuis ==> (k in r.dates <==> k in b.dates)) &&
      (forall k :: k in b.dates && k !in cuis ==> r.dates[k] == b.dates[k])
    decreases |cuis|
  {
    if cuis != [] {
      PutAllDates(b.Put(cuis[0], date), cuis[1..], date);
      assert forall c :: c in cuis ==> c == cuis[0] || c in cuis[1..];
    }
  }

  /**
   * A batch grows by at most the number of inserted CUIs: CUIs already
   * present, or repeated in the list, do not add to the size.
   */
  lemma {:induction false} PutAllSize(b: Batch, cuis: seq<int>, date: Date)
    ensures b.Size() <= PutAll(b, cuis, date).Size() <= b.Size() + |cuis|
    decreases |cuis|
  {
    if cuis != [] {
      PutAllSize(b.Put(cuis[0], date), cuis[1..], date);
    }
  }

  /**
   * An already-full batch still accepts a list of new CUIs that is itself
   * short enough: the one-CUI list `[cui]` passes every check of
   * `SetCuiList`, which then leaves `limit + 1` entries.
   */
  lemma ExistingEntriesNotCounted(b: Batch, limit: int, cui: int, date: Date)
    requires b.Valid() && b.Size() == limit && cui !in b.dates && limit >= 1
    ensures var list := [PyInt(cui)];
      |list| <= limit && ValidPrefix(list) == |list| &&
      PutAll(b, CuiKeys(list[..ValidPrefix(list)]), date).Size() == limit + 1
  {
    var list := [PyInt(cui)];
    assert CuiKeys(list[..ValidPrefix(list)]) == [cui];
    assert [cui][1..] == [];
  }

  /** The length of the longest prefix of `cuis` made of valid CUIs. */
  function ValidPrefix(cuis: seq<PyValue>): (n: nat)
    ensures n <= |cuis|
    ensures forall i :: 0 <= i < n ==> ValidateCui(cuis[i]).Ok?
    ensures n < |cuis| ==> ValidateCui(cuis[n]).Err?
  {
    if cuis == [] || ValidateCui(cuis[0]).Err? then 0 else 1 + ValidPrefix(cuis[1..])
  }

  /** The dictionary keys of a list of valid CUIs. */
  function CuiKeys(cuis: seq<PyValue>): (keys: seq<int>)
    requires forall i :: 0 <= i < |cuis| ==> ValidateCui(cuis[i]).Ok?
    ensures |keys| == |cuis|
    ensures forall i :: 0 <= i < |cuis| ==> keys[i] == ValidateCui(cuis[i]).value
  {
    seq(|cuis|, i requires 0 <= i < |cuis| => ValidateCui(cuis[i]).value)
  }

  /** Inserting the valid CUIs of a list one more element at a time. */
  lemma PutAllStep(b: Batch, cuis: seq<PyValue>, i: nat, date: Date)
    requires i < |cuis| && forall k :: 0 <= k <= i ==> ValidateCui(cuis[k]).Ok?
    ensures PutAll(b, CuiKeys(cuis[..i + 1]), date) ==
      PutAll(b, CuiKeys(cuis[..i]), date).Put(ValidateCui(cuis[i]).value, date)
  {
    assert CuiKeys(cuis[..i + 1]) == CuiKeys(cuis[..i]) + [ValidateCui(cuis[i]).value];
    PutAllSnoc(b, CuiKeys(cuis[..i]), ValidateCui(cuis[i]).value, date);
  }

  lemma {:induction false} EntriesAt(b: Batch, n: nat, k: nat)
    requires n <= |b.order| && forall i :: 0 <= i < |b.order| ==> b.order[i] in b.dates
    requires k < n
    ensures b.Entries(n)[k] == b.Entry(k)
    decreases n
  {
    var prev := b.Entries(n - 1);
    assert b.Entries(n) == prev + [b.Entry(n - 1)];
    if k < n - 1 {
      EntriesAt(b, n - 1, k);
      assert (prev + [b.Entry(n - 1)])[k] == prev[k];
    }
  }

  /** Entry `k` of the query payload is the `k`-th stored CUI with its date in ISO format. */
  lemma QueryPayloadEntries(b: Batch)
    requires b.Valid()
    ensures forall k :: 0 <= k < b.Size() ==> b.Entries(b.Size())[k] == b.Entry(k)
  {
    forall k | 0 <= k < b.Size()
      ensures b.Entries(b.Size())[k] == b.Entry(k)
    {
      EntriesAt(b, b.Size(), k);
    }
  }

  /**
   * The query payload has one entry per stored CUI: no CUI appears twice
   * and every stored CUI appears.
   */
  lemma QueryPayloadCuis(b: Batch)
    requires b.Valid()
    ensures |b.Entries(b.Size())| == |b.dates|
    ensures forall i, j :: 0 <= i < j < b.Size() ==> b.Entries(b.Size())[i].cui != b.Entries(b.Size())[j].cui
    ensures forall c :: c in b.dates ==> exists k :: 0 <= k < b.Size() && b.Entries(b.Size())[k].cui == c
  {
    var es := b.Entries(b.Size());
    assert forall k :: 0 <= k < |es| ==> es[k].cui == b.order[k] by {
      forall k | 0 <= k < |es|
        ensures es[k].cui == b.order[k]
      {
        EntriesAt(b, b.Size(), k);
      }
    }
    assert |b.dates| == |es| by {
      SizeIsKeyCount(b);
    }
  }

  /** The `data` of every payload entry reads back as the date stored for its CUI. */
  lemma QueryPayloadDates(b: Batch)
    requires b.Valid()
    ensures forall k :: 0 <= k < b.Size() ==>
      ParseIsoDate(b.Entries(b.Size())[k].Data()) == Some(b.dates[b.order[k]])
  {
    forall k | 0 <= k < b.Size()
      ensures ParseIsoDate(b.Entries(b.Size())[k].Data()) == Some(b.dates[b.order[k]])
    {
      EntriesAt(b, b.Size(), k);
      IsoRoundTrip(b.dates[b.order[k]]);
    }
  }

  /**
   * One entry of the query payload, `{'cui': ..., 'data': ...}`: the CUI
   * and the date, which the payload carries in ISO format.
   */
  datatype QueryEntry = QueryEntry(cui: int, date: Date) {
    /** The `data` field: `date.isoformat()`. */
    function Data(): string { IsoFormat(date) }
  }

  // ---------------------------------------------------------------------
  // The endpoint table and the client object
  // ---------------------------------------------------------------------

  const SyncUrl := "https://webservicesp.anaf.ro/PlatitorTvaRest/api/v3/ws/tva"
  const AsyncUrl := "https://webservicesp.anaf.ro/AsynchWebService/api/v3/ws/tva"
  const DefaultLimit := 500

  /**
   * `Anaf.WS_ENDPOINTS`: one dictionary owned by the class, so a change
   * made through any instance is seen by all of them.
   */
  class EndpointTable {
    var urls: map<string, string>

    constructor()
      ensures urls == map["sync" := SyncUrl, "async" := AsyncUrl]
    {
      urls := map["sync" := SyncUrl, "async" := AsyncUrl];
    }
  }

  class Anaf {
    var cuis: Batch
    var limit: int
    const endpoints: EndpointTable

    /** A fresh client: no CUIs, the class limit of 500, the shared endpoint table. */
    constructor(endpoints: EndpointTable)
      ensures cuis == EmptyBatch && limit == DefaultLimit && this.endpoints == endpoints
      ensures Valid()
    {
      cuis := EmptyBatch;
      limit := DefaultLimit;
      this.endpoints := endpoints;
    }

    predicate Valid()
      reads this
    {
      cuis.Valid()
    }

    /** `addEndpoint`: only the `sync` and `async` targets may be set. */
    method AddEndpoint(url: string, target: string) returns (r: Result<(), AnafError>)
      modifies endpoints
      ensures target == "sync" || target == "async" ==>
        r.Ok? && endpoints.urls == old(endpoints.urls)[target := url]
      ensures target != "sync" && target != "async" ==>
        r == Err(TargetError) && endpoints.urls == old(endpoints.urls)
    {
      if target != "sync" && target != "async" {
        return Err(TargetError);
      }
      endpoints.urls := endpoints.urls[target := url];
      r := Ok(());
    }

    /** `setLimit`: stores `int(limit)`, or fails and keeps the old limit. */
    method SetLimit(value: PyValue) returns (r: Result<(), AnafError>)
      modifies this
      ensures cuis == old(cuis)
      ensures IntOf(value).Some? ==> r.Ok? && limit == IntOf(value).value
      ensures IntOf(value).None? ==> r == Err(LimitTypeError) && limit == old(limit)
    {
      var converted := IntOf(value);
      if converted.None? {
        return Err(LimitTypeError);
      }
      limit := converted.value;
      r := Ok(());
    }

    /**
     * `setCUIList`: rejects a list longer than the limit before touching
     * anything, then checks the date once, then validates and inserts the
     * CUIs one by one, so an invalid CUI leaves the ones before it inserted.
     */
    method SetCuiList(cuiList: seq<PyValue>, date: PyValue, today: Date) returns (r: Result<(), AnafError>)
      requires Valid()
      modifies this
      ensures Valid() && limit == old(limit)
      ensures |cuiList| > old(limit) ==> r == Err(TooManyCuis(old(limit))) && cuis == old(cuis)
      ensures |cuiList| <= old(limit) && ValidateDate(DateArg(date, today)).Err? ==>
        r == Err(DateTypeError) && cuis == old(cuis)
      ensures |cuiList| <= old(limit) && ValidateDate(DateArg(date, today)).Ok? ==>
        var n := ValidPrefix(cuiList);
        cuis == PutAll(old(cuis), CuiKeys(cuiList[..n]), ValidateDate(DateArg(date, today)).value) &&
        (r.Ok? <==> n == |cuiList|) && (r.Err? ==> r.error == CuiTypeError)
    {
      if |cuiList| > limit {
        return Err(TooManyCuis(limit));
      }
      var checked := ValidateDate(DateArg(date, today));
      if checked.Err? {
        return Err(checked.error);
      }
      var day := checked.value;
      ghost var start := cuis;
      for i := 0 to |cuiList|
        invariant i <= ValidPrefix(cuiList)
        invariant cuis == PutAll(start, CuiKeys(cuiList[..i]), day)
        invariant cuis.Valid() && limit == old(limit)
      {
        var cui := ValidateCui(cuiList[i]);
        if cui.Err? {
          return Err(cui.error);
        }
        PutAllStep(start, cuiList, i, day);
        PutValid(cuis, cui.value, day);
        cuis := cuis.Put(cui.value, day);
      }
      assert cuiList[..|cuiList|] == cuiList;
      r := Ok(());
    }

    /**
     * `addCUI`: validates the CUI, then the date, inserts, and only then
     * checks the size, so an entry that overflows the limit stays in.
     */
    method AddCui(cui: PyValue, date: PyValue, today: Date) returns (r: Result<(), AnafError>)
      requires Valid()
      modifies this
      ensures Valid() && limit == old(limit)
      ensures ValidateCui(cui).Err? ==> r == Err(CuiTypeError) && cuis == old(cuis)
      ensures ValidateCui(cui).Ok? && ValidateDate(DateArg(date, today)).Err? ==>
        r == Err(DateTypeError) && cuis == old(cuis)
      ensures ValidateCui(cui).Ok? && ValidateDate(DateArg(date, today)).Ok? ==>
        cuis == old(cuis).Put(ValidateCui(cui).value, ValidateDate(DateArg(date, today)).value) &&
        (r.Err? <==> cuis.Size() > limit) && (r.Err? ==> r == Err(TooManyCuis(limit)))
    {
      var key := ValidateCui(cui);
      if key.Err? {
        return Err(key.error);
      }
      var day := ValidateDate(DateArg(date, today));
      if day.Err? {
        return Err(day.error);
      }
      PutValid(cuis, key.value, day.value);
      cuis := cuis.Put(key.value, day.value);
      if cuis.Size() > limit {
        return Err(TooManyCuis(limit));
      }
      r := Ok(());
    }

    /**
     * The payload `Query` builds: one entry per stored CUI, in insertion
     * order, with the date in ISO format.
     */
    method Query() returns (cuiList: seq<QueryEntry>)
      requires Valid()
      ensures cuiList == cuis.Entries(cuis.Size())
    {
      var b := cuis;
      cuiList := [];
      for i := 0 to |b.order|
        invariant cuiList == b.Entries(i)
      {
        cuiList := cuiList + [b.Entry(i)];
      }
    }
  }
}
