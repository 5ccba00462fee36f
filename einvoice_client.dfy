/**
 * The e-invoice client: the OAuth helper `AnafAuth` and the API client
 * `EinvoiceApi`.  The network, the JWT library and the clock are inputs:
 * each call is given the reply its request receives, the outcome of
 * decoding the access token, and the current time in seconds.
 */
module EinvoiceClient {
  import opened Wrappers
  import opened Text
  import opened JsonData
  import opened QueryString
  import InvoiceXml

  /** What the transport returns: an exception, or a status and a body. */
  datatype HttpReply<T> = Raised(reason: string) | Reply(status: int, body: T)

  /** A form post to the token endpoint, or a call to the API with a bearer token. */
  datatype Request =
    | FormPost(url: string, form: seq<(string, Json)>)
    | ApiCall(url: string, bearer: Json, payload: Option<string>)

  const GetTokenError := "Error getting token: "
  const RefreshError := "Error refreshing token: "
  const ListError := "Error listing messages: "
  const UploadError := "Error uploading invoice: "
  const Unauthorized := ResponseError("Unauthorized")

  /** The message `json.loads` raises when it is handed the response object itself. */
  const LoadsResponseError := TypeError("the JSON object must be str, bytes or bytearray, not HTTPResponse")

  predicate StartsWith(s: string, prefix: string) {
    |prefix| <= |s| && s[..|prefix|] == prefix
  }

  /**
   * `parse_element`: copies the element's attributes one by one into a
   * fresh dictionary, which ends up equal to the attribute map.
   */
  method ParseElement(element: InvoiceXml.Elem) returns (parsed: map<string, string>)
    ensures parsed == element.attrs
  {
    parsed := map[];
    var remaining := element.attrs.Keys;
    while remaining != {}
      invariant remaining <= element.attrs.Keys
      invariant parsed.Keys == element.attrs.Keys - remaining
      invariant forall k :: k in parsed ==> parsed[k] == element.attrs[k]
      decreases remaining
    {
      var key :| key in remaining;
      parsed := parsed[key := element.attrs[key]];
      remaining := remaining - {key};
    }
  }

  /**
   * The token endpoint's reply: a transport error or any status but 200
   * is an error whose message starts with `prefix`; 200 gives the body.
   */
  function TokenOutcome<T>(prefix: string, reply: HttpReply<T>): (r: Result<T, Failure>)
    ensures r.Ok? <==> reply.Reply? && reply.status == 200
    ensures r.Ok? ==> r.value == reply.body
    ensures r.Err? ==> r.error.ResponseError? && StartsWith(r.error.message, prefix)
  {
    match reply
    case Raised(reason) => Err(ResponseError(prefix + reason))
    case Reply(status, body) =>
      if status != 200 then Err(ResponseError(prefix + IntToString(status))) else Ok(body)
  }

  /**
   * The API's reply: 200 gives the body, 401 and 403 are "Unauthorized",
   * a transport error or any other status is an error starting with `prefix`.
   */
  function Classify<T>(prefix: string, reply: HttpReply<T>): (r: Result<T, Failure>)
    ensures r.Ok? <==> reply.Reply? && reply.status == 200
    ensures r.Ok? ==> r.value == reply.body
    ensures reply.Reply? && (reply.status == 401 || reply.status == 403) ==> r == Err(Unauthorized)
    ensures reply.Raised? || (reply.status != 200 && reply.status != 401 && reply.status != 403) ==>
      r.Err? && r.error.ResponseError? && StartsWith(r.error.message, prefix)
  {
    match reply
    case Raised(reason) => Err(ResponseError(prefix + reason))
    case Reply(status, body) =>
      if status == 200 then Ok(body)
      else if status == 401 || status == 403 then Err(Unauthorized)
      else Err(ResponseError(prefix + IntToString(status)))
  }

  /** The API and the token endpoint treat every reply alike except 401 and 403. */
  lemma ClassifyAgreesWithTokenOutcome<T>(prefix: string, reply: HttpReply<T>)
    ensures reply.Raised? || (reply.status != 401 && reply.status != 403) ==>
      Classify(prefix, reply) == TokenOutcome(prefix, reply)
    ensures reply.Reply? && (reply.status == 401 || reply.status == 403) ==>
      TokenOutcome(prefix, reply) == Err(ResponseError(prefix + IntToString(reply.status)))
  {
  }

  /** An unexpected status is reported in a message from which it can be read back. */
  lemma StatusReadsBack<T>(prefix: string, status: int, body: T)
    requires status != 200 && status != 401 && status != 403
    ensures var r := Classify(prefix, Reply(status, body));
      r.Err? && r.error.ResponseError? && StartsWith(r.error.message, prefix) &&
      ParseInt(r.error.message[|prefix|..]) == Some(status)
  {
    var m := prefix + IntToString(status);
    assert m[|prefix|..] == IntToString(status);
    IntRoundTrip(status);
  }

  /** The query of the authorization URL. */
  function AuthParams(clientId: string, clientSecret: string, redirectUri: string): Params {
    [("client_id", clientId), ("client_secret", clientSecret),
     ("response_type", "code"), ("redirect_uri", redirectUri)]
  }

  /** The form of the initial token request, for an authorization code. */
  function TokenForm(clientId: string, clientSecret: string, code: string, redirectUri: string): seq<(string, Json)> {
    [("client_id", Str(clientId)), ("client_secret", Str(clientSecret)),
     ("grant_type", Str("authorization_code")), ("code", Str(code)),
     ("redirect_uri", Str(redirectUri))]
  }

  /** The form of a refresh request. */
  function RefreshForm(clientId: string, clientSecret: string, refreshToken: Json, redirectUri: string): seq<(string, Json)> {
    [("client_id", Str(clientId)), ("client_secret", Str(clientSecret)),
     ("grant_type", Str("refresh_token")), ("refresh_token", refreshToken),
     ("redirect_uri", Str(redirectUri))]
  }

  /** The initial token request asks for the `authorization_code` grant and carries the code. */
  lemma TokenFormFields(clientId: string, clientSecret: string, code: string, redirectUri: string)
    ensures var t := TokenForm(clientId, clientSecret, code, redirectUri);
      Lookup(t, "grant_type") == Some(Str("authorization_code")) && Lookup(t, "code") == Some(Str(code)) &&
      Lookup(t, "refresh_token") == None
  {
    var t := TokenForm(clientId, clientSecret, code, redirectUri);
    LookupAt(t, 2, "grant_type");
    LookupAt(t, 3, "code");
    LookupAbsent(t, "refresh_token");
  }

  /**
   * A refresh request asks for the `refresh_token` grant and carries the
   * refresh token; it identifies the client in the same places as the
   * initial request.
   */
  lemma RefreshFormFields(clientId: string, clientSecret: string, code: string, refreshToken: Json, redirectUri: string)
    ensures var f := RefreshForm(clientId, clientSecret, refreshToken, redirectUri);
      var t := TokenForm(clientId, clientSecret, code, redirectUri);
      Lookup(f, "grant_type") == Some(Str("refresh_token")) && Lookup(f, "refresh_token") == Some(refreshToken) &&
      Lookup(f, "code") == None &&
      |f| == |t| && forall i :: 0 <= i < |f| && i != 2 && i != 3 ==> f[i] == t[i]
  {
    var f := RefreshForm(clientId, clientSecret, refreshToken, redirectUri);
    LookupAt(f, 2, "grant_type");
    LookupAt(f, 3, "refresh_token");
    LookupAbsent(f, "code");
  }

  lemma Assoc(a: string, b: string, c: string)
    ensures a + b + c == a + (b + c)
  {
  }

  /** Writing `sep` and a joined list is writing its first field and then `sep` and the rest. */
  lemma JoinStep(sep: string, ps: Params)
    requires |ps| >= 2
    ensures sep + Encode(ps) == (sep + FieldText(ps[0])) + ("&" + Encode(ps[1..]))
  {
    Assoc(FieldText(ps[0]), "&", Encode(ps[1..]));
    Assoc(sep, FieldText(ps[0]), "&" + Encode(ps[1..]));
  }

  /** Four pairs joined, each field written after its separator. */
  lemma JoinFour(sep: string, a: (string, string), b: (string, string), c: (string, string), d: (string, string))
    ensures sep + Encode([a, b, c, d]) ==
      (sep + FieldText(a)) + (("&" + FieldText(b)) + (("&" + FieldText(c)) + ("&" + FieldText(d))))
  {
    assert "&" + Encode([c, d]) == ("&" + FieldText(c)) + ("&" + FieldText(d)) by {
      JoinStep("&", [c, d]);
      assert [c, d][1..] == [d];
    }
    assert "&" + Encode([b, c, d]) == ("&" + FieldText(b)) + (("&" + FieldText(c)) + ("&" + FieldText(d))) by {
      JoinStep("&", [b, c, d]);
      assert [b, c, d][1..] == [c, d];
    }
    JoinStep(sep, [a, b, c, d]);
    assert [a, b, c, d][1..] == [b, c, d];
  }

  /** A separator and one field, written as the literal `sep key=` and the value. */
  lemma FieldPiece(sep: string, key: string, value: string, literal: string)
    requires literal == sep + key + "="
    ensures sep + FieldText((key, value)) == literal + value
  {
    Assoc(key, "=", value);
    Assoc(sep, key + "=", value);
    Assoc(sep, key, "=");
  }

  /** The encoded authorization parameters, field by field. */
  lemma AuthQueryEncoded(clientId: string, clientSecret: string, redirectUri: string)
    ensures "?" + Encode(AuthParams(clientId, clientSecret, redirectUri)) ==
      ("?client_id=" + clientId) + (("&client_secret=" + clientSecret) + ("&response_type=code" +
      ("&redirect_uri=" + redirectUri)))
  {
    JoinFour("?", ("client_id", clientId), ("client_secret", clientSecret), ("response_type", "code"),
             ("redirect_uri", redirectUri));
    AuthPieces(clientId, clientSecret, redirectUri);
  }

  /** Each authorization field after its separator is the literal the URL is written with. */
  lemma AuthPieces(clientId: string, clientSecret: string, redirectUri: string)
    ensures "?" + FieldText(("client_id", clientId)) == "?client_id=" + clientId
    ensures "&" + FieldText(("client_secret", clientSecret)) == "&client_secret=" + clientSecret
    ensures "&" + FieldText(("response_type", "code")) == "&response_type=code"
    ensures "&" + FieldText(("redirect_uri", redirectUri)) == "&redirect_uri=" + redirectUri
  {
    FieldPiece("?", "client_id", clientId, "?client_id=");
    FieldPiece("&", "client_secret", clientSecret, "&client_secret=");
    FieldPiece("&", "response_type", "code", "&response_type=");
    FieldPiece("&", "redirect_uri", redirectUri, "&redirect_uri=");
  }

  /** The authorization URL written piece by piece is the base, `?` and the encoded parameters. */
  lemma AuthQueryText(authUrl: string, clientId: string, clientSecret: string, redirectUri: string)
    ensures authUrl + ("?client_id=" + clientId) + ("&client_secret=" + clientSecret) + "&response_type=code" +
      ("&redirect_uri=" + redirectUri) == authUrl + "?" + Encode(AuthParams(clientId, clientSecret, redirectUri))
  {
    var e := Encode(AuthParams(clientId, clientSecret, redirectUri));
    var p0, p1, p2, p3 := "?client_id=" + clientId, "&client_secret=" + clientSecret, "&response_type=code",
      "&redirect_uri=" + redirectUri;
    assert "?" + e == p0 + (p1 + (p2 + p3)) by {
      AuthQueryEncoded(clientId, clientSecret, redirectUri);
    }
    Assoc(authUrl, "?", e);
    Assoc(authUrl + p0 + p1, p2, p3);
    Assoc(authUrl + p0, p1, p2 + p3);
    Assoc(authUrl, p0, p1 + (p2 + p3));
  }

  /** With no `&` in the client's values, the authorization URL reads back as its parameters. */
  lemma AuthUrlReadsBack(authUrl: string, clientId: string, clientSecret: string, redirectUri: string)
    requires '?' !in authUrl
    requires '&' !in clientId && '&' !in clientSecret && '&' !in redirectUri
    ensures ReadsBack(authUrl + "?" + Encode(AuthParams(clientId, clientSecret, redirectUri)), authUrl,
                      AuthParams(clientId, clientSecret, redirectUri))
  {
    AuthParamsPlain(clientId, clientSecret, redirectUri);
    QueryReadsBack(authUrl, AuthParams(clientId, clientSecret, redirectUri));
  }

  /** The authorization URL always asks for an authorization code, whatever the client's values. */
  lemma AuthAsksForCode(clientId: string, clientSecret: string, redirectUri: string)
    ensures Lookup(AuthParams(clientId, clientSecret, redirectUri), "response_type") == Some("code")
  {
    LookupAt(AuthParams(clientId, clientSecret, redirectUri), 2, "response_type");
  }

  lemma AuthParamsPlain(clientId: string, clientSecret: string, redirectUri: string)
    requires '&' !in clientId && '&' !in clientSecret && '&' !in redirectUri
    ensures Plain(AuthParams(clientId, clientSecret, redirectUri))
  {
  }

  /**
   * `refresh_anaf_token` as written: after the status check it hands the
   * response object, not its body, to `json.loads`, which raises.
   */
  function RefreshOutcomeAsWritten(reply: HttpReply<Json>): (r: Result<Json, Failure>)
    ensures r.Err?
    ensures reply.Reply? && reply.status == 200 ==> r == Err(LoadsResponseError)
    ensures reply.Raised? || reply.status != 200 ==> r == TokenOutcome(RefreshError, reply)
  {
    match TokenOutcome(RefreshError, reply)
    case Err(e) => Err(e)
    case Ok(_) => Err(LoadsResponseError)
  }

  /** A well-formed refresh reply is lost as written and read as intended. */
  lemma RefreshAsWrittenLosesTokens()
    ensures var reply := Reply(200, Obj(map["access_token" := Str("a"), "refresh_token" := Str("r")]));
      RefreshOutcomeAsWritten(reply) == Err(LoadsResponseError) &&
      TokenOutcome(RefreshError, reply) == Ok(reply.body)
  {
  }

  /**
   * `AnafAuth`: the client's credentials and the two OAuth endpoints,
   * which start as the configured URLs.
   */
  class AnafAuth {
    var clientId: string
    var clientSecret: string
    var redirectUri: string
    var authUrl: string
    var tokenUrl: string

    constructor(clientId: string, clientSecret: string, redirectUri: string, authUrl: string, tokenUrl: string)
      ensures this.clientId == clientId && this.clientSecret == clientSecret && this.redirectUri == redirectUri
      ensures this.authUrl == authUrl && this.tokenUrl == tokenUrl
    {
      this.clientId := clientId;
      this.clientSecret := clientSecret;
      this.redirectUri := redirectUri;
      this.authUrl := authUrl;
      this.tokenUrl := tokenUrl;
    }

    method SetAuthUrl(url: string)
      modifies this
      ensures authUrl == url && tokenUrl == old(tokenUrl)
      ensures clientId == old(clientId) && clientSecret == old(clientSecret) && redirectUri == old(redirectUri)
    {
      authUrl := url;
    }

    method SetTokenUrl(url: string)
      modifies this
      ensures tokenUrl == url && authUrl == old(authUrl)
      ensures clientId == old(clientId) && clientSecret == old(clientSecret) && redirectUri == old(redirectUri)
    {
      tokenUrl := url;
    }

    /** `get_auth_url`: the authorization endpoint with the client's query, unescaped. */
    method GetAuthUrl() returns (url: string)
      ensures url == authUrl + "?" + Encode(AuthParams(clientId, clientSecret, redirectUri))
    {
      url := authUrl;
      url := url + ("?client_id=" + clientId);
      url := url + ("&client_secret=" + clientSecret);
      url := url + "&response_type=code";
      url := url + ("&redirect_uri=" + redirectUri);
      AuthQueryText(authUrl, clientId, clientSecret, redirectUri);
    }

    /**
     * `get_anaf_token`: no code means no request and no result; otherwise
     * the code is posted with the client's credentials.
     */
    method GetAnafToken(code: Option<string>, reply: HttpReply<Json>)
      returns (request: Option<Request>, r: Result<Option<Json>, Failure>)
      ensures code.None? ==> request.None? && r == Ok(None)
      ensures code.Some? ==>
        request == Some(FormPost(tokenUrl, TokenForm(clientId, clientSecret, code.value, redirectUri)))
      ensures code.Some? ==>
        (r.Ok? <==> TokenOutcome(GetTokenError, reply).Ok?) &&
        (r.Ok? ==> r.value == Some(reply.body)) &&
        (r.Err? ==> r.error == TokenOutcome(GetTokenError, reply).error)
    {
      if code.None? {
        return None, Ok(None);
      }
      request := Some(FormPost(tokenUrl, TokenForm(clientId, clientSecret, code.value, redirectUri)));
      var outcome := TokenOutcome(GetTokenError, reply);
      if outcome.Err? {
        return request, Err(outcome.error);
      }
      r := Ok(Some(outcome.value));
    }

    /**
     * `refresh_anaf_token`, reading the reply's body (the evidently intended
     * behaviour; `RefreshOutcomeAsWritten` is the code as written).
     */
    method RefreshAnafToken(refreshToken: Json, reply: HttpReply<Json>) returns (request: Request, r: Result<Json, Failure>)
      ensures request == FormPost(tokenUrl, RefreshForm(clientId, clientSecret, refreshToken, redirectUri))
      ensures r == TokenOutcome(RefreshError, reply)
    {
      request := FormPost(tokenUrl, RefreshForm(clientId, clientSecret, refreshToken, redirectUri));
      r := TokenOutcome(RefreshError, reply);
    }
  }

  /** What decoding the access token (without checking its signature) gives. */
  datatype DecodeOutcome =
    | Decoded(exp: Option<int>)   // the claims decoded; `exp` when the token carries one
    | ExpiredSignature
    | InvalidToken

  /** The token's lifetime is over. */
  predicate Expired(token: DecodeOutcome, now: int) {
    token.ExpiredSignature? || (token.Decoded? && token.exp.Some? && now >= token.exp.value)
  }

  /**
   * `is_token_valid`, whose answer is True when the token has EXPIRED and
   * False when it is still good or cannot be decoded at all; a decoded
   * token without `exp` raises a KeyError.
   */
  function IsTokenValid(token: DecodeOutcome, now: int): (r: Result<bool, Failure>)
    ensures r.Err? <==> token.Decoded? && token.exp.None?
    ensures r.Err? ==> r.error == KeyError("exp")
    ensures r.Ok? ==> (r.value <==> Expired(token, now))
  {
    match token
    case Decoded(exp) => if exp.None? then Err(KeyError("exp")) else Ok(now >= exp.value)
    case ExpiredSignature => Ok(true)
    case InvalidToken => Ok(false)
  }

  datatype Tokens = Tokens(access: Json, refresh: Json)

  /** The tokens after an attempt to change them, and whether it raised. */
  datatype TokenUpdate = TokenUpdate(tokens: Tokens, outcome: Result<(), Failure>)

  /**
   * `refresh_access_token` given what the token endpoint returned: the
   * access token is replaced first, so a reply without a refresh token
   * leaves the new access token beside the old refresh token.
   */
  function RefreshTokens(t: Tokens, data: Result<Json, Failure>): (u: TokenUpdate)
    ensures data.Err? ==> u == TokenUpdate(t, Err(data.error))
    ensures data.Ok? ==>
      (u.outcome.Ok? <==> Get(data.value, "access_token").Ok? && Get(data.value, "refresh_token").Ok?)
    ensures u.outcome.Ok? ==>
      u.tokens == Tokens(data.value.fields["access_token"], data.value.fields["refresh_token"])
    ensures data.Ok? && Get(data.value, "access_token").Err? ==>
      u == TokenUpdate(t, Err(Get(data.value, "access_token").error))
    ensures data.Ok? && Get(data.value, "access_token").Ok? && Get(data.value, "refresh_token").Err? ==>
      u == TokenUpdate(Tokens(data.value.fields["access_token"], t.refresh),
                       Err(Get(data.value, "refresh_token").error))
  {
    match data
    case Err(e) => TokenUpdate(t, Err(e))
    case Ok(body) =>
      match Get(body, "access_token")
      case Err(e) => TokenUpdate(t, Err(e))
      case Ok(access) =>
        match Get(body, "refresh_token")
        case Err(e) => TokenUpdate(Tokens(access, t.refresh), Err(e))
        case Ok(refresh) => TokenUpdate(Tokens(access, refresh), Ok(()))
  }

  /** `ensure_token_valid`: refresh when `is_token_valid` answers True. */
  function EnsureTokens(t: Tokens, token: DecodeOutcome, now: int, data: Result<Json, Failure>): (u: TokenUpdate)
    ensures token.Decoded? && token.exp.None? ==> u == TokenUpdate(t, Err(KeyError("exp")))
    ensures Expired(token, now) ==> u == RefreshTokens(t, data)
    ensures !Expired(token, now) && !(token.Decoded? && token.exp.None?) ==> u == TokenUpdate(t, Ok(()))
  {
    match IsTokenValid(token, now)
    case Err(e) => TokenUpdate(t, Err(e))
    case Ok(refresh) => if refresh then RefreshTokens(t, data) else TokenUpdate(t, Ok(()))
  }

  /**
   * Only an expired token is refreshed: a token that is still good, one
   * that cannot be decoded and one without `exp` keep both tokens as they are.
   */
  lemma RefreshOnlyWhenExpired(t: Tokens, token: DecodeOutcome, now: int, data: Result<Json, Failure>)
    ensures Expired(token, now) ==> EnsureTokens(t, token, now, data) == RefreshTokens(t, data)
    ensures !Expired(token, now) ==> EnsureTokens(t, token, now, data).tokens == t
    ensures EnsureTokens(t, token, now, data).outcome.Ok? && !Expired(token, now) ==>
      token.InvalidToken? || (token.Decoded? && token.exp.Some? && now < token.exp.value)
  {
  }

  /**
   * With `refresh_anaf_token` as written, every call that finds its token
   * expired raises while refreshing, whatever the token endpoint replied,
   * and both tokens stay as they were.
   */
  lemma ExpiredTokenRaisesAsWritten(t: Tokens, token: DecodeOutcome, now: int, reply: HttpReply<Json>)
    requires Expired(token, now)
    ensures var u := EnsureTokens(t, token, now, RefreshOutcomeAsWritten(reply));
      u.tokens == t && u.outcome.Err?
    ensures reply.Reply? && reply.status == 200 ==>
      EnsureTokens(t, token, now, RefreshOutcomeAsWritten(reply)) == TokenUpdate(t, Err(LoadsResponseError))
  {
    RefreshOnlyWhenExpired(t, token, now, RefreshOutcomeAsWritten(reply));
  }

  const DefaultDays := 30
  const ListPath := "/listaMesajeFactura"
  const PaginatedPath := "/listaMesajePaginatieFactura"
  const UploadPath := "/upload"

  /** The query of `list_messages`: `cif`, `zile` (30 by default), and `filtru` only when one is given. */
  function ListParams(cif: string, days: Option<int>, filter: string): (ps: Params)
    ensures |ps| == (if filter != "" then 3 else 2) && ps[0] == ("cif", cif)
    ensures ps[1] == ("zile", IntToString(if days.Some? then days.value else DefaultDays))
    ensures filter != "" ==> ps[2] == ("filtru", filter)
  {
    [("cif", cif), ("zile", IntToString(if days.Some? then days.value else DefaultDays))] +
    (if filter != "" then [("filtru", filter)] else [])
  }

  /** The query of `list_messages_paginated`: the window, the page, and `filtru` only when one is given. */
  function PaginatedParams(cif: string, startTime: int, endTime: int, page: int, filter: string): (ps: Params)
    ensures |ps| == (if filter != "" then 5 else 4) && ps[0] == ("cif", cif)
    ensures ps[1] == ("startTime", IntToString(startTime)) && ps[2] == ("endTime", IntToString(endTime))
    ensures ps[3] == ("pagina", IntToString(page))
    ensures filter != "" ==> ps[4] == ("filtru", filter)
  {
    [("cif", cif), ("startTime", IntToString(startTime)), ("endTime", IntToString(endTime)),
     ("pagina", IntToString(page))] +
    (if filter != "" then [("filtru", filter)] else [])
  }

  /** The query of `upload_invoice`: `standard` and `cif`, then `external` and `selfInvoice` when set. */
  function UploadParams(standard: string, cif: string, external: bool, selfInvoice: bool): (ps: Params)
    ensures |ps| == 2 + (if external then 1 else 0) + (if selfInvoice then 1 else 0)
    ensures ps[0] == ("standard", standard) && ps[1] == ("cif", cif)
    ensures external ==> ps[2] == ("external", "DA")
    ensures selfInvoice ==> ps[|ps| - 1] == ("selfInvoice", "DA")
    ensures forall i :: 2 <= i < |ps| ==> ps[i].1 == "DA"
  {
    [("standard", standard), ("cif", cif)] +
    (if external then [("external", "DA")] else []) +
    (if selfInvoice then [("selfInvoice", "DA")] else [])
  }

  /** The `list_messages` URL: the endpoint, a `?`, then the query. */
  function ListMessagesUrl(base: string, cif: string, days: Option<int>, filter: string): (u: string)
    ensures |u| > |base + ListPath| && u[..|base + ListPath|] == base + ListPath && u[|base + ListPath|] == '?'
    ensures u[|base + ListPath| + 1..] == Encode(ListParams(cif, days, filter))
  {
    base + ListPath + "?" + Encode(ListParams(cif, days, filter))
  }

  function PaginatedUrl(base: string, cif: string, startTime: int, endTime: int, page: int, filter: string): string {
    base + PaginatedPath + "?" + Encode(PaginatedParams(cif, startTime, endTime, page, filter))
  }

  function UploadUrl(base: string, standard: string, cif: string, external: bool, selfInvoice: bool): string {
    base + UploadPath + "?" + Encode(UploadParams(standard, cif, external, selfInvoice))
  }

  lemma NumberIsPlain(i: int)
    ensures '&' !in IntToString(i)
  {
    var s := if i < 0 then -i else i;
    assert AllDigits(NatToString(s));
    assert forall c :: c in NatToString(s) ==> IsDigit(c);
    if i < 0 {
      assert IntToString(i) == "-" + NatToString(s);
    }
  }

  lemma ListParamsPlain(cif: string, days: Option<int>, filter: string)
    requires '&' !in cif && '&' !in filter
    ensures Plain(ListParams(cif, days, filter))
  {
    NumberIsPlain(if days.Some? then days.value else DefaultDays);
  }

  lemma PaginatedParamsPlain(cif: string, startTime: int, endTime: int, page: int, filter: string)
    requires '&' !in cif && '&' !in filter
    ensures Plain(PaginatedParams(cif, startTime, endTime, page, filter))
  {
    NumberIsPlain(startTime);
    NumberIsPlain(endTime);
    NumberIsPlain(page);
  }

  /** The list URL reads back as the API base, the endpoint and the list query. */
  lemma ListUrlReadsBack(base: string, cif: string, days: Option<int>, filter: string)
    requires '?' !in base && '&' !in cif && '&' !in filter
    ensures ReadsBack(ListMessagesUrl(base, cif, days, filter), base + ListPath, ListParams(cif, days, filter))
  {
    ListParamsPlain(cif, days, filter);
    QueryReadsBack(base + ListPath, ListParams(cif, days, filter));
  }

  lemma PaginatedUrlReadsBack(base: string, cif: string, startTime: int, endTime: int, page: int, filter: string)
    requires '?' !in base && '&' !in cif && '&' !in filter
    ensures ReadsBack(PaginatedUrl(base, cif, startTime, endTime, page, filter), base + PaginatedPath,
                      PaginatedParams(cif, startTime, endTime, page, filter))
  {
    PaginatedParamsPlain(cif, startTime, endTime, page, filter);
    QueryReadsBack(base + PaginatedPath, PaginatedParams(cif, startTime, endTime, page, filter));
  }

  lemma UploadUrlReadsBack(base: string, standard: string, cif: string, external: bool, selfInvoice: bool)
    requires '?' !in base && '&' !in standard && '&' !in cif
    ensures ReadsBack(UploadUrl(base, standard, cif, external, selfInvoice), base + UploadPath,
                      UploadParams(standard, cif, external, selfInvoice))
  {
    var ps := UploadParams(standard, cif, external, selfInvoice);
    assert Plain(ps);
    QueryReadsBack(base + UploadPath, ps);
  }

  /**
   * One API call: the token check (and refresh) first; when it raises,
   * nothing is sent; otherwise the request carries the current access
   * token and the reply is classified.
   */
  ghost predicate Exchanged<T>(before: Tokens, after: Tokens, token: DecodeOutcome, now: int,
                               refreshReply: HttpReply<Json>, target: string, payload: Option<string>,
                               request: Option<Request>, sent: Result<T, Failure>, r: Result<T, Failure>)
  {
    var u := EnsureTokens(before, token, now, TokenOutcome(RefreshError, refreshReply));
    after == u.tokens &&
    (u.outcome.Err? ==> request.None? && r == Err(u.outcome.error)) &&
    (u.outcome.Ok? ==> request == Some(ApiCall(target, after.access, payload)) && r == sent)
  }

  /** `EinvoiceApi`: the API base URL, the two tokens and the OAuth helper. */
  class EinvoiceApi {
    var url: string
    var accessToken: Json
    var refreshToken: Json
    const auth: AnafAuth

    /** The base URL, authorization URL and token URL are the configured ones. */
    constructor(url: string, accessToken: Json, refreshToken: Json,
                clientId: string, clientSecret: string, redirectUri: string,
                authUrl: string, tokenUrl: string)
      ensures this.url == url && this.accessToken == accessToken && this.refreshToken == refreshToken
      ensures fresh(auth)
      ensures auth.clientId == clientId && auth.clientSecret == clientSecret && auth.redirectUri == redirectUri
      ensures auth.authUrl == authUrl && auth.tokenUrl == tokenUrl
    {
      this.url := url;
      this.accessToken := accessToken;
      this.refreshToken := refreshToken;
      auth := new AnafAuth(clientId, clientSecret, redirectUri, authUrl, tokenUrl);
    }

    method SetUrl(url: string)
      modifies this
      ensures this.url == url && accessToken == old(accessToken) && refreshToken == old(refreshToken)
    {
      this.url := url;
    }

    /**
     * `refresh_access_token`, with the token endpoint answering `reply`;
     * `posted` is the refresh form sent, which carries the current refresh token.
     */
    method RefreshAccessToken(reply: HttpReply<Json>) returns (posted: Request, r: Result<(), Failure>)
      modifies this
      ensures url == old(url)
      ensures posted == FormPost(auth.tokenUrl, RefreshForm(auth.clientId, auth.clientSecret, old(refreshToken), auth.redirectUri))
      ensures var u := RefreshTokens(Tokens(old(accessToken), old(refreshToken)), TokenOutcome(RefreshError, reply));
        Tokens(accessToken, refreshToken) == u.tokens && r == u.outcome
    {
      var data;
      posted, data := auth.RefreshAnafToken(refreshToken, reply);
      if data.Err? {
        return posted, Err(data.error);
      }
      var access := Get(data.value, "access_token");
      if access.Err? {
        return posted, Err(access.error);
      }
      accessToken := access.value;
      var refresh := Get(data.value, "refresh_token");
      if refresh.Err? {
        return posted, Err(refresh.error);
      }
      refreshToken := refresh.value;
      r := Ok(());
    }

    /** `ensure_token_valid`, with the decoded token, the time and the refresh reply as inputs. */
    method EnsureTokenValid(token: DecodeOutcome, now: int, reply: HttpReply<Json>) returns (r: Result<(), Failure>)
      modifies this
      ensures url == old(url)
      ensures var u := EnsureTokens(Tokens(old(accessToken), old(refreshToken)), token, now,
                                    TokenOutcome(RefreshError, reply));
        Tokens(accessToken, refreshToken) == u.tokens && r == u.outcome
    {
      var check := IsTokenValid(token, now);
      if check.Err? {
        return Err(check.error);
      }
      if check.value {
        var posted;
        posted, r := RefreshAccessToken(reply);
      } else {
        r := Ok(());
      }
    }

    /** `list_messages`: the body of a successful reply is the result. */
    method ListMessages(cif: string, days: Option<int>, filter: string,
                        token: DecodeOutcome, now: int, refreshReply: HttpReply<Json>, reply: HttpReply<string>)
      returns (request: Option<Request>, r: Result<string, Failure>)
      modifies this
      ensures url == old(url)
      ensures Exchanged(Tokens(old(accessToken), old(refreshToken)), Tokens(accessToken, refreshToken),
                        token, now, refreshReply, ListMessagesUrl(url, cif, days, filter), None,
                        request, Classify(ListError, reply), r)
    {
      var ensured := EnsureTokenValid(token, now, refreshReply);
      if ensured.Err? {
        return None, Err(ensured.error);
      }
      request := Some(ApiCall(ListMessagesUrl(url, cif, days, filter), accessToken, None));
      r := Classify(ListError, reply);
    }

    /** `list_messages_paginated`. */
    method ListMessagesPaginated(cif: string, startTime: int, endTime: int, page: int, filter: string,
                                 token: DecodeOutcome, now: int, refreshReply: HttpReply<Json>, reply: HttpReply<string>)
      returns (request: Option<Request>, r: Result<string, Failure>)
      modifies this
      ensures url == old(url)
      ensures Exchanged(Tokens(old(accessToken), old(refreshToken)), Tokens(accessToken, refreshToken),
                        token, now, refreshReply, PaginatedUrl(url, cif, startTime, endTime, page, filter), None,
                        request, Classify(ListError, reply), r)
    {
      var ensured := EnsureTokenValid(token, now, refreshReply);
      if ensured.Err? {
        return None, Err(ensured.error);
      }
      request := Some(ApiCall(PaginatedUrl(url, cif, startTime, endTime, page, filter), accessToken, None));
      r := Classify(ListError, reply);
    }

    /**
     * `upload_invoice`: posts the XML text; a successful reply is an XML
     * document whose root's attributes are the result.
     */
    method UploadInvoice(xml: string, standard: string, cif: string, external: bool, selfInvoice: bool,
                         token: DecodeOutcome, now: int, refreshReply: HttpReply<Json>,
                         reply: HttpReply<InvoiceXml.Elem>)
      returns (request: Option<Request>, r: Result<map<string, string>, Failure>)
      modifies this
      ensures url == old(url)
      ensures Exchanged(Tokens(old(accessToken), old(refreshToken)), Tokens(accessToken, refreshToken),
                        token, now, refreshReply, UploadUrl(url, standard, cif, external, selfInvoice), Some(xml),
                        request, UploadOutcome(reply), r)
    {
      var ensured := EnsureTokenValid(token, now, refreshReply);
      if ensured.Err? {
        return None, Err(ensured.error);
      }
      request := Some(ApiCall(UploadUrl(url, standard, cif, external, selfInvoice), accessToken, Some(xml)));
      var root := Classify(UploadError, reply);
      if root.Err? {
        return request, Err(root.error);
      }
      var parsed := ParseElement(root.value);
      r := Ok(parsed);
    }
  }

  /** The result of an upload: the reply's root attributes when the status is 200. */
  function UploadOutcome(reply: HttpReply<InvoiceXml.Elem>): (r: Result<map<string, string>, Failure>)
    ensures r.Ok? <==> reply.Reply? && reply.status == 200
    ensures r.Ok? ==> r.value == reply.body.attrs
  {
    match Classify(UploadError, reply)
    case Ok(root) => Ok(root.attrs)
    case Err(e) => Err(e)
  }
}
