/** The decisions of the OAuth credential service, as functions: the
    authorization URL (section 4.1.1 of RFC 6749, without percent-encoding),
    the token-endpoint request bodies of the authorization-code grant
    (section 4.1.3) and the refresh-token grant (section 6), the checks made
    on each request and reply, and the HTTP status every failure maps to.

    The secure store is a value (`StoreState`): providers by name, refresh
    tokens by (provider, credential id), and whether reads or writes of it
    fail. An HTTP exchange with the provider is a value too (`HttpExchange`).
    OAuthService runs the same steps on objects. */
module OAuth {
  import opened Wrappers
  import opened JavaStrings

  const HTTP_OK := 200
  const HTTP_BAD_REQUEST := 400
  const HTTP_NOT_FOUND := 404
  const HTTP_INTERNAL_ERROR := 500

  datatype OAuthClientCredentials = OAuthClientCredentials(clientId: string, clientSecret: string)

  /** A provider as stored; the client credentials are absent when the
      provider was registered with reuse_client_credentials and the store
      has none to keep. */
  datatype OAuthProvider = OAuthProvider(name: string, loginURL: string, tokenRefreshURL: string,
                                         clientCredentials: Option<OAuthClientCredentials>)

  datatype OAuthRefreshToken = OAuthRefreshToken(refreshToken: string, redirectURI: string)

  /** What Gson makes of a JSON text: a syntax error with its message, null
      (the literal `null` or an empty text), or a document. */
  datatype Json<T> = SyntaxError(detail: string) | JsonNull | Document(value: T)

  datatype PutOAuthProviderRequest = PutOAuthProviderRequest(
    loginURL: Option<string>, tokenRefreshURL: Option<string>,
    clientId: Option<string>, clientSecret: Option<string>)

  datatype PutOAuthCredentialRequest = PutOAuthCredentialRequest(oneTimeCode: Option<string>, redirectURI: Option<string>)

  /** The token endpoint's JSON reply, read into RefreshTokenResponse. */
  datatype RefreshTokenResponse = RefreshTokenResponse(
    refreshToken: Option<string>, accessToken: Option<string>, instanceURL: Option<string>)

  /** A POST to the provider's token endpoint; `formEncoded` says whether the
      form-urlencoded Content-Type header is set. */
  datatype TokenRequest = TokenRequest(url: string, body: string, formEncoded: bool)

  /** Executing a token request: an IOException, or a reply with its status
      code, message and body, and what Gson makes of that body. */
  datatype HttpExchange = IOFailure | Reply(code: int, message: string, body: string, parsed: Json<RefreshTokenResponse>)

  /** `new URL(s)`: the URL's external form (what `toString()` gives back),
      or the message of the MalformedURLException it throws. */
  type UrlParser = string -> Result<string, string>

  /** What a handler sends through the responder. `Escaped` is an exception
      other than OAuthServiceException (a NullPointerException) leaving the
      handler uncaught. */
  datatype Response =
    | SendString(text: string)
    | SendStatus(status: int)
    | SendError(status: int, message: string)
    | SendAccessToken(accessToken: string, instanceURL: Option<string>)
    | SendValidity(valid: bool)
    | Escaped

  /** A failed step: an OAuthServiceException, or an uncaught NullPointerException. */
  datatype Fault = ServiceException(status: int, message: string) | NullPointer

  /** `OAuthServiceException.respond`: the status is kept, and a 500 never
      shows its own message. */
  function Respond(f: Fault): (r: Response)
    ensures f.ServiceException? ==> r.SendError? && r.status == f.status
    ensures r.SendError? && r.status == HTTP_INTERNAL_ERROR ==> r.message == "Internal error"
    ensures f.ServiceException? && f.status != HTTP_INTERNAL_ERROR ==> r.message == f.message
    ensures f.NullPointer? ==> r.Escaped?
  {
    match f
    case ServiceException(status, message) =>
      if status == HTTP_INTERNAL_ERROR then SendError(status, "Internal error") else SendError(status, message)
    case NullPointer => Escaped
  }

  // ---------------------------------------------------------------- store

  /** The secure store's contents, and whether reading or writing it throws
      OAuthStoreException. */
  datatype StoreState = StoreState(
    providers: map<string, OAuthProvider>,
    refreshTokens: map<(string, string), OAuthRefreshToken>,
    readFails: bool, writeFails: bool)

  /** `getProvider`. */
  function GetProvider(s: StoreState, name: string): (r: Result<OAuthProvider, Fault>)
    ensures r.Success? <==> !s.readFails && name in s.providers
    ensures r.Success? ==> r.value == s.providers[name]
    ensures s.readFails ==> r == Failure(ServiceException(HTTP_INTERNAL_ERROR, "Error attempting to retrieve OAuth provider"))
    ensures !s.readFails && name !in s.providers ==> r == Failure(ServiceException(HTTP_NOT_FOUND, "Unknown OAuth provider: " + name))
  {
    if s.readFails then Failure(ServiceException(HTTP_INTERNAL_ERROR, "Error attempting to retrieve OAuth provider"))
    else if name in s.providers then Success(s.providers[name])
    else Failure(ServiceException(HTTP_NOT_FOUND, "Unknown OAuth provider: " + name))
  }

  /** `getRefreshToken`. */
  function GetRefreshToken(s: StoreState, provider: string, credentialId: string): (r: Result<OAuthRefreshToken, Fault>)
    ensures r.Success? <==> !s.readFails && (provider, credentialId) in s.refreshTokens
    ensures r.Success? ==> r.value == s.refreshTokens[(provider, credentialId)]
    ensures s.readFails ==> r == Failure(ServiceException(HTTP_INTERNAL_ERROR, "Failed to read OAuth credential from secure store"))
    ensures !s.readFails && (provider, credentialId) !in s.refreshTokens ==>
      r == Failure(ServiceException(HTTP_NOT_FOUND, "Unknown OAuth credential: " + credentialId))
  {
    if s.readFails then Failure(ServiceException(HTTP_INTERNAL_ERROR, "Failed to read OAuth credential from secure store"))
    else if (provider, credentialId) in s.refreshTokens then Success(s.refreshTokens[(provider, credentialId)])
    else Failure(ServiceException(HTTP_NOT_FOUND, "Unknown OAuth credential: " + credentialId))
  }

  /** What the store keeps for `writeProvider(p, reuse)`: with reuse, a
      provider of that name already stored keeps its client credentials. */
  function StoredProvider(s: StoreState, p: OAuthProvider, reuse: bool): OAuthProvider {
    if reuse && p.name in s.providers then p.(clientCredentials := s.providers[p.name].clientCredentials) else p
  }

  function WriteProvider(s: StoreState, p: OAuthProvider, reuse: bool): (r: Result<StoreState, Fault>)
    ensures r.Success? <==> !s.writeFails
    ensures r.Success? ==> r.value == s.(providers := s.providers[p.name := StoredProvider(s, p, reuse)])
  {
    if s.writeFails then Failure(ServiceException(HTTP_INTERNAL_ERROR, "Failed to write to OAuth store"))
    else Success(s.(providers := s.providers[p.name := StoredProvider(s, p, reuse)]))
  }

  function WriteRefreshToken(s: StoreState, provider: string, credentialId: string, t: OAuthRefreshToken): (r: Result<StoreState, Fault>)
    ensures r.Success? <==> !s.writeFails
    ensures r.Success? ==> r.value == s.(refreshTokens := s.refreshTokens[(provider, credentialId) := t])
  {
    if s.writeFails then Failure(ServiceException(HTTP_INTERNAL_ERROR, "Failed to write refresh token"))
    else Success(s.(refreshTokens := s.refreshTokens[(provider, credentialId) := t]))
  }

  // ---------------------------------------------------- authorization URL

  /** What `getAuthURL` puts between the login URL and the parameters. */
  function QuerySeparator(loginURL: string): (sep: string)
    ensures '?' !in loginURL ==> sep == "?"
    ensures '?' in loginURL && !EndsWith(loginURL, '&') ==> sep == "&"
    ensures '?' in loginURL && EndsWith(loginURL, '&') ==> sep == ""
  {
    if '?' !in loginURL then "?" else if !EndsWith(loginURL, '&') then "&" else ""
  }

  /** The redirect parameter: `redirect_uri`, or the older `redirect_url`
      when `redirect_uri` is missing or empty. */
  function RedirectParameter(redirectURI: Option<string>, redirectURL: Option<string>): (r: Option<string>)
    ensures !IsNullOrEmpty(redirectURI) ==> r == redirectURI
    ensures IsNullOrEmpty(redirectURI) ==> r == redirectURL
  {
    if IsNullOrEmpty(redirectURI) then redirectURL else redirectURI
  }

  /** The `String.format` of `getAuthURL`; a null redirect prints as "null". */
  function AuthorizationURL(loginURL: string, clientId: string, redirect: Option<string>): string {
    loginURL + QuerySeparator(loginURL) + "client_id=" + clientId + "&redirect_uri=" + Render(redirect)
  }

  /** The login URL with its separator always opens a query for the new
      parameters: it has a '?', it ends in '?' or '&', and the separator adds
      at most one character. */
  lemma SeparatorOpensQuery(loginURL: string)
    ensures var prefix := loginURL + QuerySeparator(loginURL);
      '?' in prefix && (EndsWith(prefix, '?') || EndsWith(prefix, '&')) && |prefix| <= |loginURL| + 1
  {
    var prefix := loginURL + QuerySeparator(loginURL);
    if '?' in loginURL {
      var k :| 0 <= k < |loginURL| && loginURL[k] == '?';
      assert prefix[k] == '?';
    } else {
      assert prefix[|loginURL|] == '?';
    }
  }

  /** After the login URL and its separator come exactly the two parameters,
      client_id then redirect_uri, as long as neither value holds an '&'
      (nothing is percent-encoded). */
  lemma AuthorizationURLParameters(loginURL: string, clientId: string, redirect: Option<string>)
    requires '&' !in clientId && '&' !in Render(redirect)
    ensures var url := AuthorizationURL(loginURL, clientId, redirect);
      var start := |loginURL + QuerySeparator(loginURL)|;
      start <= |url| && url[..|loginURL|] == loginURL &&
      Split(url[start..], '&') == ["client_id=" + clientId, "redirect_uri=" + Render(redirect)]
  {
    var url := AuthorizationURL(loginURL, clientId, redirect);
    var prefix := loginURL + QuerySeparator(loginURL);
    var a := "client_id=" + clientId;
    var b := "redirect_uri=" + Render(redirect);
    var amp := "&redirect_uri=";
    assert amp == ['&'] + "redirect_uri=" by {
      assert amp[0] == '&' && amp[1..] == "redirect_uri=";
    }
    assert url == prefix + (a + ['&'] + b) by {
      assert url == prefix + a + amp + Render(redirect);
    }
    assert url[|prefix|..] == a + ['&'] + b;
    assert '&' !in "client_id=" && '&' !in "redirect_uri=";
    SplitTwo(a, '&', b);
  }

  /** An illustration of `QuerySeparator`'s contract on concrete login URLs:
      one without a query gets '?', one with a query gets '&', one already
      ending in '&' gets nothing. */
  lemma QuerySeparatorExamples()
    ensures QuerySeparator("https://p.com/auth?x=1") == "&"
    ensures QuerySeparator("https://p.com/auth?x=1&") == ""
    ensures QuerySeparator("https://p.com/auth") == "?"
  {
    assert "https://p.com/auth?x=1"[18] == '?';
    assert "https://p.com/auth?x=1&"[18] == '?';
    var plain := "https://p.com/auth";
    assert forall i | 0 <= i < |plain| :: plain[i] != '?';
  }

  // ---------------------------------------------------- token requests

  /** The body of the authorization-code grant, as `createGetRefreshTokenRequest` formats it. */
  function RefreshTokenRequestBody(code: string, redirectURI: string, creds: OAuthClientCredentials): string {
    "code=" + code + "&redirect_uri=" + redirectURI + "&client_id=" + creds.clientId +
    "&client_secret=" + creds.clientSecret + "&grant_type=authorization_code"
  }

  /** The body of the refresh-token grant, as `createGetAccessTokenRequest` formats it. */
  function AccessTokenRequestBody(creds: OAuthClientCredentials, refreshToken: string): string {
    "grant_type=refresh_token&client_id=" + creds.clientId + "&client_secret=" + creds.clientSecret +
    "&refresh_token=" + refreshToken
  }

  /** Reading a form body back: the pieces between '&', each split at its first '='. */
  function DecodeParameter(piece: string): (string, string) {
    var i := IndexOf(piece, '=');
    if i < 0 then (piece, "") else (piece[..i], piece[i + 1..])
  }

  function DecodeParameters(pieces: seq<string>): (r: seq<(string, string)>)
    ensures |r| == |pieces|
  {
    if pieces == [] then [] else [DecodeParameter(pieces[0])] + DecodeParameters(pieces[1..])
  }

  function FormDecode(body: string): seq<(string, string)> {
    DecodeParameters(Split(body, '&'))
  }

  /** The form pieces key=value, unencoded, as the request bodies write them. */
  function Pieces(keys: seq<string>, values: seq<string>): (r: seq<string>)
    requires |keys| == |values|
    ensures |r| == |keys|
  {
    if keys == [] then [] else [keys[0] + "=" + values[0]] + Pieces(keys[1..], values[1..])
  }

  function Pairs(keys: seq<string>, values: seq<string>): (r: seq<(string, string)>)
    requires |keys| == |values|
    ensures |r| == |keys|
  {
    if keys == [] then [] else [(keys[0], values[0])] + Pairs(keys[1..], values[1..])
  }

  lemma {:induction false} PieceAt(keys: seq<string>, values: seq<string>, i: nat)
    requires |keys| == |values| && i < |keys|
    ensures Pieces(keys, values)[i] == keys[i] + "=" + values[i]
  {
    if i > 0 {
      PieceAt(keys[1..], values[1..], i - 1);
    }
  }

  /** Decoding a form body gives its parameters back, in order, provided no
      key holds an '=' and nothing holds an '&'. */
  lemma FormRoundTrip(keys: seq<string>, values: seq<string>)
    requires |keys| == |values| >= 1
    requires forall i :: 0 <= i < |keys| ==> '=' !in keys[i] && '&' !in keys[i] && '&' !in values[i]
    ensures FormDecode(Join(Pieces(keys, values), '&')) == Pairs(keys, values)
  {
    var pieces := Pieces(keys, values);
    forall i | 0 <= i < |pieces| ensures '&' !in pieces[i] {
      PieceAt(keys, values, i);
    }
    SplitJoin(pieces, '&');
    DecodePairs(keys, values);
  }

  lemma JoinFour(a: string, b: string, c: string, d: string)
    ensures Join([a, b, c, d], '&') == a + "&" + b + "&" + c + "&" + d
  {
    assert [a, b, c, d][1..] == [b, c, d];
    assert [b, c, d][1..] == [c, d];
    assert [c, d][1..] == [d];
    assert Join([c, d], '&') == c + "&" + d;
    assert Join([b, c, d], '&') == b + "&" + (c + "&" + d);
    assert Join([a, b, c, d], '&') == a + "&" + (b + "&" + (c + "&" + d));
  }

  lemma JoinFive(a: string, b: string, c: string, d: string, e: string)
    ensures Join([a, b, c, d, e], '&') == a + "&" + b + "&" + c + "&" + d + "&" + e
  {
    assert [a, b, c, d, e][1..] == [b, c, d, e];
    JoinFour(b, c, d, e);
    assert Join([a, b, c, d, e], '&') == a + "&" + (b + "&" + c + "&" + d + "&" + e);
  }

  lemma DecodeOne(k: string, v: string)
    requires '=' !in k
    ensures DecodeParameter(k + "=" + v) == (k, v)
  {
    IndexOfAfterPiece(k, '=', v);
    assert k + "=" + v == k + ['='] + v;
    assert (k + ['='] + v)[..|k|] == k;
    assert (k + ['='] + v)[|k| + 1..] == v;
  }

  /** Decoding pieces of the form key=value gives the pairs back, provided no
      key holds an '='. */
  lemma {:induction false} DecodePairs(keys: seq<string>, values: seq<string>)
    requires |keys| == |values|
    requires forall i :: 0 <= i < |keys| ==> '=' !in keys[i]
    ensures DecodeParameters(Pieces(keys, values)) == Pairs(keys, values)
  {
    if keys != [] {
      DecodeOne(keys[0], values[0]);
      DecodePairs(keys[1..], values[1..]);
    }
  }

  /** Proof helpers only: they split the string constants of the two request
      bodies at the separators and the '=' signs, and state nothing about the
      handler. */
  lemma RefreshTokenBodyLiterals()
    ensures "code=" == "code" + "="
    ensures "&redirect_uri=" == "&" + "redirect_uri" + "="
    ensures "&client_id=" == "&" + "client_id" + "="
    ensures "&client_secret=" == "&" + "client_secret" + "="
    ensures "&grant_type=authorization_code" == "&" + ("grant_type" + "=" + "authorization_code")
  {
  }

  lemma AccessTokenBodyLiterals()
    ensures "grant_type=refresh_token&client_id=" == ("grant_type" + "=" + "refresh_token") + "&" + "client_id" + "="
    ensures "&client_secret=" == "&" + "client_secret" + "="
    ensures "&refresh_token=" == "&" + "refresh_token" + "="
  {
  }

  lemma RefreshTokenBodyIsJoin(code: string, redirectURI: string, creds: OAuthClientCredentials)
    ensures RefreshTokenRequestBody(code, redirectURI, creds) ==
      Join(["code" + "=" + code, "redirect_uri" + "=" + redirectURI, "client_id" + "=" + creds.clientId,
            "client_secret" + "=" + creds.clientSecret, "grant_type" + "=" + "authorization_code"], '&')
  {
    RefreshTokenBodyLiterals();
    assert RefreshTokenRequestBody(code, redirectURI, creds) ==
      ("code" + "=" + code) + "&" + ("redirect_uri" + "=" + redirectURI) + "&" + ("client_id" + "=" + creds.clientId) + "&" +
      ("client_secret" + "=" + creds.clientSecret) + "&" + ("grant_type" + "=" + "authorization_code");
    JoinFive("code" + "=" + code, "redirect_uri" + "=" + redirectURI, "client_id" + "=" + creds.clientId,
             "client_secret" + "=" + creds.clientSecret, "grant_type" + "=" + "authorization_code");
  }

  lemma AccessTokenBodyIsJoin(creds: OAuthClientCredentials, refreshToken: string)
    ensures AccessTokenRequestBody(creds, refreshToken) ==
      Join(["grant_type" + "=" + "refresh_token", "client_id" + "=" + creds.clientId,
            "client_secret" + "=" + creds.clientSecret, "refresh_token" + "=" + refreshToken], '&')
  {
    AccessTokenBodyLiterals();
    assert AccessTokenRequestBody(creds, refreshToken) ==
      ("grant_type" + "=" + "refresh_token") + "&" + ("client_id" + "=" + creds.clientId) + "&" +
      ("client_secret" + "=" + creds.clientSecret) + "&" + ("refresh_token" + "=" + refreshToken);
    JoinFour("grant_type" + "=" + "refresh_token", "client_id" + "=" + creds.clientId,
             "client_secret" + "=" + creds.clientSecret, "refresh_token" + "=" + refreshToken);
  }

  /** The code-grant body carries exactly code, redirect_uri, client_id,
      client_secret and grant_type=authorization_code, in that order,
      provided no value holds an '&'. */
  lemma RefreshTokenBodyParameters(code: string, redirectURI: string, creds: OAuthClientCredentials)
    requires '&' !in code && '&' !in redirectURI && '&' !in creds.clientId && '&' !in creds.clientSecret
    ensures FormDecode(RefreshTokenRequestBody(code, redirectURI, creds)) ==
      [("code", code), ("redirect_uri", redirectURI), ("client_id", creds.clientId),
       ("client_secret", creds.clientSecret), ("grant_type", "authorization_code")]
  {
    var keys := ["code", "redirect_uri", "client_id", "client_secret", "grant_type"];
    var values := [code, redirectURI, creds.clientId, creds.clientSecret, "authorization_code"];
    FivePieces(keys, values);
    RefreshTokenBodyIsJoin(code, redirectURI, creds);
    FormRoundTrip(keys, values);
  }

  /** The refresh-grant body carries exactly grant_type=refresh_token,
      client_id, client_secret and refresh_token, in that order, provided no
      value holds an '&'. */
  lemma AccessTokenBodyParameters(creds: OAuthClientCredentials, refreshToken: string)
    requires '&' !in refreshToken && '&' !in creds.clientId && '&' !in creds.clientSecret
    ensures FormDecode(AccessTokenRequestBody(creds, refreshToken)) ==
      [("grant_type", "refresh_token"), ("client_id", creds.clientId),
       ("client_secret", creds.clientSecret), ("refresh_token", refreshToken)]
  {
    var keys := ["grant_type", "client_id", "client_secret", "refresh_token"];
    var values := ["refresh_token", creds.clientId, creds.clientSecret, refreshToken];
    FourPieces(keys, values);
    AccessTokenBodyIsJoin(creds, refreshToken);
    FormRoundTrip(keys, values);
  }

  lemma {:induction false} PairAt(keys: seq<string>, values: seq<string>, i: nat)
    requires |keys| == |values| && i < |keys|
    ensures Pairs(keys, values)[i] == (keys[i], values[i])
  {
    if i > 0 {
      PairAt(keys[1..], values[1..], i - 1);
    }
  }

  lemma FourPieces(keys: seq<string>, values: seq<string>)
    requires |keys| == |values| == 4
    ensures Pieces(keys, values) == [keys[0] + "=" + values[0], keys[1] + "=" + values[1],
                                     keys[2] + "=" + values[2], keys[3] + "=" + values[3]]
    ensures Pairs(keys, values) == [(keys[0], values[0]), (keys[1], values[1]), (keys[2], values[2]), (keys[3], values[3])]
  {
    PieceAt(keys, values, 0); PieceAt(keys, values, 1); PieceAt(keys, values, 2); PieceAt(keys, values, 3);
    PairAt(keys, values, 0); PairAt(keys, values, 1); PairAt(keys, values, 2); PairAt(keys, values, 3);
  }

  lemma FivePieces(keys: seq<string>, values: seq<string>)
    requires |keys| == |values| == 5
    ensures Pieces(keys, values) == [keys[0] + "=" + values[0], keys[1] + "=" + values[1],
                                     keys[2] + "=" + values[2], keys[3] + "=" + values[3], keys[4] + "=" + values[4]]
    ensures Pairs(keys, values) == [(keys[0], values[0]), (keys[1], values[1]), (keys[2], values[2]),
                                    (keys[3], values[3]), (keys[4], values[4])]
  {
    PieceAt(keys, values, 0); PieceAt(keys, values, 1); PieceAt(keys, values, 2);
    PieceAt(keys, values, 3); PieceAt(keys, values, 4);
    PairAt(keys, values, 0); PairAt(keys, values, 1); PairAt(keys, values, 2);
    PairAt(keys, values, 3); PairAt(keys, values, 4);
  }

  /** `createGetRefreshTokenRequest`: `new URL` of the token URL first (500
      when malformed), then the client credentials (a NullPointerException
      when the provider has none). */
  function RefreshTokenRequest(p: OAuthProvider, code: string, redirectURI: string, urls: UrlParser): (r: Result<TokenRequest, Fault>)
    ensures r.Success? <==> urls(p.tokenRefreshURL).Success? && p.clientCredentials.Some?
    ensures r.Success? ==>
      r.value == TokenRequest(urls(p.tokenRefreshURL).value, RefreshTokenRequestBody(code, redirectURI, p.clientCredentials.value), true)
    ensures urls(p.tokenRefreshURL).Failure? ==> r == Failure(ServiceException(HTTP_INTERNAL_ERROR, "Malformed URL"))
  {
    if urls(p.tokenRefreshURL).Failure? then Failure(ServiceException(HTTP_INTERNAL_ERROR, "Malformed URL"))
    else if p.clientCredentials.None? then Failure(NullPointer)
    else Success(TokenRequest(urls(p.tokenRefreshURL).value, RefreshTokenRequestBody(code, redirectURI, p.clientCredentials.value), true))
  }

  /** `createGetAccessTokenRequest`; unlike the code grant it sets no
      Content-Type header. */
  function AccessTokenRequest(p: OAuthProvider, refreshToken: string, urls: UrlParser): (r: Result<TokenRequest, Fault>)
    ensures r.Success? <==> urls(p.tokenRefreshURL).Success? && p.clientCredentials.Some?
    ensures r.Success? ==>
      r.value == TokenRequest(urls(p.tokenRefreshURL).value, AccessTokenRequestBody(p.clientCredentials.value, refreshToken), false)
    ensures urls(p.tokenRefreshURL).Failure? ==> r == Failure(ServiceException(HTTP_INTERNAL_ERROR, "Malformed URL"))
  {
    if urls(p.tokenRefreshURL).Failure? then Failure(ServiceException(HTTP_INTERNAL_ERROR, "Malformed URL"))
    else if p.clientCredentials.None? then Failure(NullPointer)
    else Success(TokenRequest(urls(p.tokenRefreshURL).value, AccessTokenRequestBody(p.clientCredentials.value, refreshToken), false))
  }

  // ---------------------------------------------------- token replies

  function NotOkMessage(code: int, message: string, body: string): string {
    "Request for refresh token did not return 200. Response code: " + IntToString(code) +
    " , response message: " + message + " , respone body: " + body
  }

  /** The checks `putOAuthCredential` makes on the provider's reply. */
  function RefreshTokenFrom(x: HttpExchange): Result<string, Fault> {
    match x
    case IOFailure => Failure(ServiceException(HTTP_INTERNAL_ERROR, "Error while fetching refresh token"))
    case Reply(code, message, body, parsed) =>
      if code != HTTP_OK then Failure(ServiceException(code, NotOkMessage(code, message, body)))
      else match parsed
        case SyntaxError(detail) => Failure(ServiceException(HTTP_INTERNAL_ERROR, "Failed to parse JSON: " + detail))
        case JsonNull => Failure(NullPointer)
        case Document(t) =>
          if IsNullOrEmpty(t.refreshToken)
          then Failure(ServiceException(HTTP_INTERNAL_ERROR, "Refresh token response body did not contain refresh token"))
          else Success(t.refreshToken.value)
  }

  datatype AccessToken = AccessToken(accessToken: string, instanceURL: Option<string>)

  /** The checks `getOAuthCredential` makes on the provider's reply. */
  function AccessTokenFrom(x: HttpExchange): Result<AccessToken, Fault> {
    match x
    case IOFailure => Failure(ServiceException(HTTP_INTERNAL_ERROR, "Failed to fetch refresh token"))
    case Reply(code, message, body, parsed) =>
      if code != HTTP_OK then Failure(ServiceException(code, NotOkMessage(code, message, body)))
      else match parsed
        case SyntaxError(_) => Failure(ServiceException(HTTP_INTERNAL_ERROR, "Error parsing JSON response"))
        case JsonNull => Failure(NullPointer)
        case Document(t) =>
          if IsNullOrEmpty(t.accessToken)
          then Failure(ServiceException(HTTP_INTERNAL_ERROR, "Refresh token response body does not have refresh token"))
          else Success(AccessToken(t.accessToken.value, t.instanceURL))
  }

  /** The status every failed exchange maps to: 500 for a local failure, the
      provider's own code for a reply other than 200. */
  function ExpectedFailureStatus(x: HttpExchange): int {
    if x.IOFailure? || x.code == HTTP_OK then HTTP_INTERNAL_ERROR else x.code
  }

  function FaultStatus<T>(r: Result<T, Fault>): int
    requires r.Failure? && r.error.ServiceException?
  {
    r.error.status
  }

  /** The two grants share one failure mapping: either one succeeds exactly
      when the reply is a 200 whose body parses and holds its token; a
      null body escapes as a NullPointerException; every other failure has
      the status `ExpectedFailureStatus` gives. */
  lemma ExchangeFailureMapping(x: HttpExchange)
    ensures RefreshTokenFrom(x).Success? <==>
      x.Reply? && x.code == HTTP_OK && x.parsed.Document? && !IsNullOrEmpty(x.parsed.value.refreshToken)
    ensures AccessTokenFrom(x).Success? <==>
      x.Reply? && x.code == HTTP_OK && x.parsed.Document? && !IsNullOrEmpty(x.parsed.value.accessToken)
    ensures RefreshTokenFrom(x) == Failure(NullPointer) <==> x.Reply? && x.code == HTTP_OK && x.parsed.JsonNull?
    ensures AccessTokenFrom(x) == Failure(NullPointer) <==> x.Reply? && x.code == HTTP_OK && x.parsed.JsonNull?
    ensures RefreshTokenFrom(x).Failure? && RefreshTokenFrom(x).error.ServiceException? ==>
      FaultStatus(RefreshTokenFrom(x)) == ExpectedFailureStatus(x)
    ensures AccessTokenFrom(x).Failure? && AccessTokenFrom(x).error.ServiceException? ==>
      FaultStatus(AccessTokenFrom(x)) == ExpectedFailureStatus(x)
  {
    if x.Reply? && x.code == HTTP_OK {
      match x.parsed
      case SyntaxError(_) =>
      case JsonNull =>
      case Document(_) =>
    }
  }

  /** `checkCredIsValid`: false for any reply other than 200, 500 for an
      unparsable 200 body, otherwise whether the access token is non-empty. */
  function CheckCredIsValid(code: int, parsed: Json<RefreshTokenResponse>): Result<bool, Fault> {
    if code != HTTP_OK then Success(false)
    else match parsed
      case SyntaxError(_) => Failure(ServiceException(HTTP_INTERNAL_ERROR, "Failed to parse JSON"))
      case JsonNull => Failure(NullPointer)
      case Document(t) => Success(!IsNullOrEmpty(t.accessToken))
  }

  /** A credential is reported valid exactly when the same reply would give
      an access token; a refused request is "not valid" where fetching the
      token reports the provider's status; an unparsable 200 is a 500 for both. */
  lemma ValidityAgreesWithAccessToken(x: HttpExchange)
    requires x.Reply?
    ensures CheckCredIsValid(x.code, x.parsed) == Success(true) <==> AccessTokenFrom(x).Success?
    ensures x.code != HTTP_OK ==>
      CheckCredIsValid(x.code, x.parsed) == Success(false) && AccessTokenFrom(x).Failure? &&
      AccessTokenFrom(x).error == ServiceException(x.code, NotOkMessage(x.code, x.message, x.body))
    ensures x.code == HTTP_OK && x.parsed.SyntaxError? ==>
      CheckCredIsValid(x.code, x.parsed).Failure? && AccessTokenFrom(x).Failure? &&
      Respond(CheckCredIsValid(x.code, x.parsed).error) == Respond(AccessTokenFrom(x).error) == SendError(HTTP_INTERNAL_ERROR, "Internal error")
  {
  }

  // ---------------------------------------------------- request bodies

  /** The checks `putOAuthCredential` makes on its JSON body, before
      anything else: the one-time code, then the redirect URI. */
  function CredentialRequestFields(body: Json<PutOAuthCredentialRequest>): (r: Result<(string, string), Fault>)
    ensures r.Success? <==> body.Document? && !IsNullOrEmpty(body.value.oneTimeCode) && !IsNullOrEmpty(body.value.redirectURI)
    ensures r.Success? ==> r.value == (body.value.oneTimeCode.value, body.value.redirectURI.value)
    ensures body.Document? && IsNullOrEmpty(body.value.oneTimeCode) ==>
      r == Failure(ServiceException(HTTP_BAD_REQUEST, "Invalid request: missing one-time code"))
    ensures body.Document? && !IsNullOrEmpty(body.value.oneTimeCode) && IsNullOrEmpty(body.value.redirectURI) ==>
      r == Failure(ServiceException(HTTP_BAD_REQUEST, "Invalid request: missing redirect URI"))
  {
    match body
    case SyntaxError(detail) => Failure(ServiceException(HTTP_BAD_REQUEST, "Invalid JSON: " + detail))
    case JsonNull => Failure(NullPointer)
    case Document(req) =>
      if IsNullOrEmpty(req.oneTimeCode) then Failure(ServiceException(HTTP_BAD_REQUEST, "Invalid request: missing one-time code"))
      else if IsNullOrEmpty(req.redirectURI) then Failure(ServiceException(HTTP_BAD_REQUEST, "Invalid request: missing redirect URI"))
      else Success((req.oneTimeCode.value, req.redirectURI.value))
  }

  /** `new URL(u)` on a possibly-null string; a null fails with the message "null". */
  function CheckUrl(u: Option<string>, urls: UrlParser): Result<string, string> {
    match u
    case None => Failure(Render(None))
    case Some(s) => urls(s)
  }

  /** The provider `putOAuthProvider` builds from its JSON body, or the 400
      it answers: invalid JSON, a null body or a null client field (a
      NullPointerException, caught), or a malformed login or token URL. */
  function ProviderFromRequest(name: string, body: Json<PutOAuthProviderRequest>, reuse: bool, urls: UrlParser): (r: Result<OAuthProvider, Fault>)
    ensures r.Failure? ==> r.error.ServiceException? && r.error.status == HTTP_BAD_REQUEST
    ensures r.Success? <==>
      body.Document? && CheckUrl(body.value.loginURL, urls).Success? && CheckUrl(body.value.tokenRefreshURL, urls).Success? &&
      (reuse || (body.value.clientId.Some? && body.value.clientSecret.Some?))
    ensures r.Success? ==>
      r.value.name == name && r.value.loginURL == CheckUrl(body.value.loginURL, urls).value &&
      r.value.tokenRefreshURL == CheckUrl(body.value.tokenRefreshURL, urls).value &&
      // with reuse the provider carries no client credentials of its own
      r.value.clientCredentials == (if reuse then None
        else Some(OAuthClientCredentials(body.value.clientId.value, body.value.clientSecret.value)))
  {
    match body
    case SyntaxError(detail) => Failure(ServiceException(HTTP_BAD_REQUEST, "Invalid JSON: " + detail))
    case JsonNull => Failure(ServiceException(HTTP_BAD_REQUEST, "Invalid provider: " + Render(None)))
    case Document(req) =>
      if CheckUrl(req.loginURL, urls).Failure? then
        Failure(ServiceException(HTTP_BAD_REQUEST, "Invalid URL: " + CheckUrl(req.loginURL, urls).error))
      else if CheckUrl(req.tokenRefreshURL, urls).Failure? then
        Failure(ServiceException(HTTP_BAD_REQUEST, "Invalid URL: " + CheckUrl(req.tokenRefreshURL, urls).error))
      else if !reuse && (req.clientId.None? || req.clientSecret.None?) then
        Failure(ServiceException(HTTP_BAD_REQUEST, "Invalid provider: " + Render(None)))
      else
        var creds := if reuse then None else Some(OAuthClientCredentials(req.clientId.value, req.clientSecret.value));
        Success(OAuthProvider(name, CheckUrl(req.loginURL, urls).value, CheckUrl(req.tokenRefreshURL, urls).value, creds))
  }

  // ---------------------------------------------------- the five operations

  /** A handler's answer, the token request it issued (if any), and the
      store afterwards. */
  datatype Outcome = Outcome(response: Response, sent: Option<TokenRequest>, store: StoreState)

  /** `getAuthURL`. */
  function AuthURLResponse(s: StoreState, provider: string, redirectURI: Option<string>, redirectURL: Option<string>): Response {
    match GetProvider(s, provider)
    case Failure(f) => Respond(f)
    case Success(p) =>
      if p.clientCredentials.None? then Respond(NullPointer)
      else SendString(AuthorizationURL(p.loginURL, p.clientCredentials.value.clientId, RedirectParameter(redirectURI, redirectURL)))
  }

  /** `putOAuthProvider`. */
  function PutOAuthProviderOutcome(s: StoreState, name: string, body: Json<PutOAuthProviderRequest>, reuse: bool, urls: UrlParser): Outcome {
    match ProviderFromRequest(name, body, reuse, urls)
    case Failure(f) => Outcome(Respond(f), None, s)
    case Success(p) =>
      match WriteProvider(s, p, reuse)
      case Failure(f) => Outcome(Respond(f), None, s)
      case Success(s') => Outcome(SendStatus(HTTP_OK), None, s')
  }

  /** `putOAuthCredential`: check the body, find the provider, build and send
      the code-grant request, check the reply, and only then store the token. */
  function PutOAuthCredentialOutcome(s: StoreState, provider: string, credentialId: string,
                                     body: Json<PutOAuthCredentialRequest>, x: HttpExchange, urls: UrlParser): Outcome {
    match CredentialRequestFields(body)
    case Failure(f) => Outcome(Respond(f), None, s)
    case Success(fields) =>
      var (code, redirectURI) := fields;
      match GetProvider(s, provider)
      case Failure(f) => Outcome(Respond(f), None, s)
      case Success(p) =>
        match RefreshTokenRequest(p, code, redirectURI, urls)
        case Failure(f) => Outcome(Respond(f), None, s)
        case Success(request) =>
          match RefreshTokenFrom(x)
          case Failure(f) => Outcome(Respond(f), Some(request), s)
          case Success(token) =>
            match WriteRefreshToken(s, provider, credentialId, OAuthRefreshToken(token, redirectURI))
            case Failure(f) => Outcome(Respond(f), Some(request), s)
            case Success(s') => Outcome(SendStatus(HTTP_OK), Some(request), s')
  }

  /** `getOAuthCredential`: provider, stored refresh token, refresh-grant
      request, reply checks; nothing is stored. */
  function GetOAuthCredentialOutcome(s: StoreState, provider: string, credentialId: string, x: HttpExchange, urls: UrlParser): Outcome {
    match GetProvider(s, provider)
    case Failure(f) => Outcome(Respond(f), None, s)
    case Success(p) =>
      match GetRefreshToken(s, provider, credentialId)
      case Failure(f) => Outcome(Respond(f), None, s)
      case Success(rt) =>
        match AccessTokenRequest(p, rt.refreshToken, urls)
        case Failure(f) => Outcome(Respond(f), None, s)
        case Success(request) =>
          match AccessTokenFrom(x)
          case Failure(f) => Outcome(Respond(f), Some(request), s)
          case Success(t) => Outcome(SendAccessToken(t.accessToken, t.instanceURL), Some(request), s)
  }

  /** `getOAuthCredentialValidity`: an IOException is a 500, not "invalid". */
  function ValidityOutcome(s: StoreState, provider: string, credentialId: string, x: HttpExchange, urls: UrlParser): Outcome {
    match GetProvider(s, provider)
    case Failure(f) => Outcome(Respond(f), None, s)
    case Success(p) =>
      match GetRefreshToken(s, provider, credentialId)
      case Failure(f) => Outcome(Respond(f), None, s)
      case Success(rt) =>
        match AccessTokenRequest(p, rt.refreshToken, urls)
        case Failure(f) => Outcome(Respond(f), None, s)
        case Success(request) =>
          if x.IOFailure? then
            Outcome(Respond(ServiceException(HTTP_INTERNAL_ERROR, "Error while fetching refresh token")), Some(request), s)
          else match CheckCredIsValid(x.code, x.parsed)
            case Failure(f) => Outcome(Respond(f), Some(request), s)
            case Success(valid) => Outcome(SendValidity(valid), Some(request), s)
  }

  // ---------------------------------------------------- properties

  /** A missing code or redirect URI is answered with 400 before the store is
      consulted or a request is sent, whatever the store holds. */
  lemma CredentialChecksComeFirst(s: StoreState, s2: StoreState, provider: string, credentialId: string,
                                  body: Json<PutOAuthCredentialRequest>, x: HttpExchange, x2: HttpExchange, urls: UrlParser)
    requires body.Document? && (IsNullOrEmpty(body.value.oneTimeCode) || IsNullOrEmpty(body.value.redirectURI))
    ensures var o := PutOAuthCredentialOutcome(s, provider, credentialId, body, x, urls);
      o.sent.None? && o.store == s && o.response.SendError? && o.response.status == HTTP_BAD_REQUEST &&
      o.response == PutOAuthCredentialOutcome(s2, provider, credentialId, body, x2, urls).response
  {
  }

  /** The refresh token is stored only after the whole exchange succeeded,
      and then it is exactly the token of the reply, with the redirect URI
      of the request, under (provider, credential id). */
  lemma StoreOnlyAfterSuccessfulExchange(s: StoreState, provider: string, credentialId: string,
                                         body: Json<PutOAuthCredentialRequest>, x: HttpExchange, urls: UrlParser)
    ensures var o := PutOAuthCredentialOutcome(s, provider, credentialId, body, x, urls);
      (o.store != s ==> o.response == SendStatus(HTTP_OK)) &&
      (o.response == SendStatus(HTTP_OK) <==>
        CredentialRequestFields(body).Success? && GetProvider(s, provider).Success? && o.sent.Some? &&
        RefreshTokenFrom(x).Success? && !s.writeFails) &&
      (o.response == SendStatus(HTTP_OK) ==>
        o.store == s.(refreshTokens := s.refreshTokens[(provider, credentialId) :=
          OAuthRefreshToken(RefreshTokenFrom(x).value, body.value.redirectURI.value)]))
  {
  }

  /** Reading a credential or its validity never changes the store. */
  lemma ReadsLeaveStoreAlone(s: StoreState, provider: string, credentialId: string, x: HttpExchange, urls: UrlParser)
    ensures GetOAuthCredentialOutcome(s, provider, credentialId, x, urls).store == s
    ensures ValidityOutcome(s, provider, credentialId, x, urls).store == s
  {
  }

  /** A validity check that cannot reach the provider answers 500, not
      "invalid"; a reply other than 200 answers "invalid". */
  lemma ValidityFailureModes(s: StoreState, provider: string, credentialId: string, x: HttpExchange, urls: UrlParser)
    requires GetProvider(s, provider).Success? && GetRefreshToken(s, provider, credentialId).Success?
    requires AccessTokenRequest(GetProvider(s, provider).value, GetRefreshToken(s, provider, credentialId).value.refreshToken, urls).Success?
    ensures x.IOFailure? ==> ValidityOutcome(s, provider, credentialId, x, urls).response == SendError(HTTP_INTERNAL_ERROR, "Internal error")
    ensures x.Reply? && x.code != HTTP_OK ==> ValidityOutcome(s, provider, credentialId, x, urls).response == SendValidity(false)
  {
  }

  /** Under the `StoredProvider` assumption about the store: registering a
      provider with its client credentials and then again with
      reuse_client_credentials keeps those credentials. The handler's own
      part is to pass the flag and the new URLs to the store. */
  lemma ReuseKeepsClientCredentials(s: StoreState, name: string, first: PutOAuthProviderRequest,
                                    second: PutOAuthProviderRequest, urls: UrlParser)
    requires !s.writeFails && first.clientId.Some? && first.clientSecret.Some?
    requires CheckUrl(first.loginURL, urls).Success? && CheckUrl(first.tokenRefreshURL, urls).Success?
    requires CheckUrl(second.loginURL, urls).Success? && CheckUrl(second.tokenRefreshURL, urls).Success?
    ensures var s1 := PutOAuthProviderOutcome(s, name, Document(first), false, urls).store;
      var s2 := PutOAuthProviderOutcome(s1, name, Document(second), true, urls).store;
      name in s2.providers &&
      s2.providers[name].clientCredentials == Some(OAuthClientCredentials(first.clientId.value, first.clientSecret.value)) &&
      s2.providers[name].loginURL == CheckUrl(second.loginURL, urls).value
  {
  }

  /** A one-time code exchanged for a refresh token stores that token, which
      the next `getOAuthCredential` sends, as the body's refresh_token, to
      obtain the access token of the reply. */
  lemma CredentialThenAccessToken(s: StoreState, provider: string, credentialId: string, p: OAuthProvider, urls: UrlParser,
                                  code: string, redirectURI: string, refreshToken: string,
                                  accessToken: string, instanceURL: Option<string>)
    requires !s.readFails && !s.writeFails && provider in s.providers && s.providers[provider] == p
    requires p.clientCredentials.Some? && urls(p.tokenRefreshURL).Success?
    requires code != "" && redirectURI != "" && refreshToken != "" && accessToken != ""
    ensures var putBody := Document(PutOAuthCredentialRequest(Some(code), Some(redirectURI)));
      var refreshReply := Reply(HTTP_OK, "OK", "", Document(RefreshTokenResponse(Some(refreshToken), None, None)));
      var o1 := PutOAuthCredentialOutcome(s, provider, credentialId, putBody, refreshReply, urls);
      var accessReply := Reply(HTTP_OK, "OK", "", Document(RefreshTokenResponse(None, Some(accessToken), instanceURL)));
      var o2 := GetOAuthCredentialOutcome(o1.store, provider, credentialId, accessReply, urls);
      o1.response == SendStatus(HTTP_OK) &&
      o1.store == s.(refreshTokens := s.refreshTokens[(provider, credentialId) := OAuthRefreshToken(refreshToken, redirectURI)]) &&
      o2.response == SendAccessToken(accessToken, instanceURL) &&
      o2.sent == Some(TokenRequest(urls(p.tokenRefreshURL).value, AccessTokenRequestBody(p.clientCredentials.value, refreshToken), false))
  {
    var putBody := Document(PutOAuthCredentialRequest(Some(code), Some(redirectURI)));
    var refreshReply := Reply(HTTP_OK, "OK", "", Document(RefreshTokenResponse(Some(refreshToken), None, None)));
    assert CredentialRequestFields(putBody) == Success((code, redirectURI));
    assert RefreshTokenFrom(refreshReply) == Success(refreshToken);
    var s1 := s.(refreshTokens := s.refreshTokens[(provider, credentialId) := OAuthRefreshToken(refreshToken, redirectURI)]);
    assert PutOAuthCredentialOutcome(s, provider, credentialId, putBody, refreshReply, urls).store == s1;
    var accessReply := Reply(HTTP_OK, "OK", "", Document(RefreshTokenResponse(None, Some(accessToken), instanceURL)));
    assert GetRefreshToken(s1, provider, credentialId) == Success(OAuthRefreshToken(refreshToken, redirectURI));
    assert AccessTokenFrom(accessReply) == Success(AccessToken(accessToken, instanceURL));
  }
}
