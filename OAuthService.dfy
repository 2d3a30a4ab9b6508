/** The OAuth service handler as objects: the store it writes to, the
    responder it answers through, and one method per HTTP endpoint. Each
    method leaves the store and the responder exactly as the matching
    function of module OAuth says. */
module OAuthService {
  import opened Wrappers
  import opened OAuth

  datatype OAuthStoreException = OAuthStoreException

  /** The provider and refresh-token tables of the secure store, and whether
      reading or writing them throws. */
  class OAuthStore {
    var providers: map<string, OAuthProvider>
    var refreshTokens: map<(string, string), OAuthRefreshToken>
    var readFails: bool
    var writeFails: bool

    function State(): StoreState
      reads this
    {
      StoreState(providers, refreshTokens, readFails, writeFails)
    }

    constructor (initial: StoreState)
      ensures State() == initial
    {
      providers := initial.providers;
      refreshTokens := initial.refreshTokens;
      readFails := initial.readFails;
      writeFails := initial.writeFails;
    }

    /** `getProvider`: the provider stored under `name`, if any. */
    method ReadProvider(name: string) returns (r: Result<Option<OAuthProvider>, OAuthStoreException>)
      ensures r.Failure? <==> readFails
      ensures r.Success? ==> r.value == (if name in providers then Some(providers[name]) else None)
    {
      if readFails {
        return Failure(OAuthStoreException);
      }
      if name in providers {
        r := Success(Some(providers[name]));
      } else {
        r := Success(None);
      }
    }

    /** `getRefreshToken`: the token stored under (provider, credential id), if any. */
    method ReadRefreshToken(provider: string, credentialId: string) returns (r: Result<Option<OAuthRefreshToken>, OAuthStoreException>)
      ensures r.Failure? <==> readFails
      ensures r.Success? ==>
        r.value == (if (provider, credentialId) in refreshTokens then Some(refreshTokens[(provider, credentialId)]) else None)
    {
      if readFails {
        return Failure(OAuthStoreException);
      }
      if (provider, credentialId) in refreshTokens {
        r := Success(Some(refreshTokens[(provider, credentialId)]));
      } else {
        r := Success(None);
      }
    }

    /** `writeProvider`; with reuse, the credentials already stored for that
      name are kept. */
    method WriteProvider(p: OAuthProvider, reuse: bool) returns (r: Result<(), OAuthStoreException>)
      modifies this
      ensures r.Failure? <==> old(writeFails)
      ensures r.Failure? ==> State() == old(State())
      ensures r.Success? ==> State() == old(State()).(providers := old(providers)[p.name := StoredProvider(old(State()), p, reuse)])
    {
      if writeFails {
        return Failure(OAuthStoreException);
      }
      providers := providers[p.name := StoredProvider(State(), p, reuse)];
      r := Success(());
    }

    method WriteRefreshToken(provider: string, credentialId: string, t: OAuthRefreshToken) returns (r: Result<(), OAuthStoreException>)
      modifies this
      ensures r.Failure? <==> old(writeFails)
      ensures r.Failure? ==> State() == old(State())
      ensures r.Success? ==> State() == old(State()).(refreshTokens := old(refreshTokens)[(provider, credentialId) := t])
    {
      if writeFails {
        return Failure(OAuthStoreException);
      }
      refreshTokens := refreshTokens[(provider, credentialId) := t];
      r := Success(());
    }
  }

  /** The HttpServiceResponder: everything sent through it, in order. */
  class Responder {
    var responses: seq<Response>

    constructor ()
      ensures responses == []
    {
      responses := [];
    }

    method Send(r: Response)
      modifies this
      ensures responses == old(responses) + [r]
    {
      responses := responses + [r];
    }
  }

  class OAuthHandler {
    const store: OAuthStore
    /** How `new URL(…)` treats each string. */
    const urls: UrlParser

    constructor (store: OAuthStore, urls: UrlParser)
      ensures this.store == store && this.urls == urls
    {
      this.store := store;
      this.urls := urls;
    }

    /** The private `getProvider`: a missing provider is a 404, a failed read a 500. */
    method GetProvider(provider: string) returns (r: Result<OAuthProvider, Fault>)
      ensures r == OAuth.GetProvider(store.State(), provider)
    {
      var read := store.ReadProvider(provider);
      if read.Failure? {
        return Failure(ServiceException(HTTP_INTERNAL_ERROR, "Error attempting to retrieve OAuth provider"));
      }
      if read.value.Some? {
        return Success(read.value.value);
      }
      r := Failure(ServiceException(HTTP_NOT_FOUND, "Unknown OAuth provider: " + provider));
    }

    /** The private `getRefreshToken`. */
    method GetRefreshToken(provider: string, credentialId: string) returns (r: Result<OAuthRefreshToken, Fault>)
      ensures r == OAuth.GetRefreshToken(store.State(), provider, credentialId)
    {
      var read := store.ReadRefreshToken(provider, credentialId);
      if read.Failure? {
        return Failure(ServiceException(HTTP_INTERNAL_ERROR, "Failed to read OAuth credential from secure store"));
      }
      if read.value.Some? {
        return Success(read.value.value);
      }
      r := Failure(ServiceException(HTTP_NOT_FOUND, "Unknown OAuth credential: " + credentialId));
    }

    /** GET …/authurl. */
    method GetAuthURL(responder: Responder, provider: string, redirectURI: Option<string>, redirectURL: Option<string>)
      modifies responder
      ensures responder.responses == old(responder.responses) + [AuthURLResponse(store.State(), provider, redirectURI, redirectURL)]
    {
      var p := GetProvider(provider);
      if p.Failure? {
        responder.Send(Respond(p.error));
        return;
      }
      var creds := p.value.clientCredentials;
      if creds.None? {
        responder.Send(Respond(NullPointer));
        return;
      }
      var redirect := RedirectParameter(redirectURI, redirectURL);
      responder.Send(SendString(AuthorizationURL(p.value.loginURL, creds.value.clientId, redirect)));
    }

    /** PUT …/provider/{provider}. */
    method PutOAuthProvider(responder: Responder, name: string, body: Json<PutOAuthProviderRequest>, reuse: bool)
      modifies store, responder
      ensures var o := PutOAuthProviderOutcome(old(store.State()), name, body, reuse, urls);
        store.State() == o.store && responder.responses == old(responder.responses) + [o.response]
    {
      var p := ProviderFromRequest(name, body, reuse, urls);
      if p.Failure? {
        responder.Send(Respond(p.error));
        return;
      }
      var written := store.WriteProvider(p.value, reuse);
      if written.Failure? {
        responder.Send(Respond(ServiceException(HTTP_INTERNAL_ERROR, "Failed to write to OAuth store")));
        return;
      }
      responder.Send(SendStatus(HTTP_OK));
    }

    /** PUT …/credential/{credential}: exchanges the one-time code for a
        refresh token, given the provider's reply `x`; `sent` is the token
        request issued, if one was. */
    method PutOAuthCredential(responder: Responder, provider: string, credentialId: string,
                              body: Json<PutOAuthCredentialRequest>, x: HttpExchange) returns (sent: Option<TokenRequest>)
      modifies store, responder
      ensures var o := PutOAuthCredentialOutcome(old(store.State()), provider, credentialId, body, x, urls);
        store.State() == o.store && sent == o.sent && responder.responses == old(responder.responses) + [o.response]
    {
      sent := None;
      var fields := CredentialRequestFields(body);
      if fields.Failure? {
        responder.Send(Respond(fields.error));
        return;
      }
      var (code, redirectURI) := fields.value;
      var p := GetProvider(provider);
      if p.Failure? {
        responder.Send(Respond(p.error));
        return;
      }
      var request := RefreshTokenRequest(p.value, code, redirectURI, urls);
      if request.Failure? {
        responder.Send(Respond(request.error));
        return;
      }
      sent := Some(request.value);
      var token := RefreshTokenFrom(x);
      if token.Failure? {
        responder.Send(Respond(token.error));
        return;
      }
      var written := store.WriteRefreshToken(provider, credentialId, OAuthRefreshToken(token.value, redirectURI));
      if written.Failure? {
        responder.Send(Respond(ServiceException(HTTP_INTERNAL_ERROR, "Failed to write refresh token")));
        return;
      }
      responder.Send(SendStatus(HTTP_OK));
    }

    /** GET …/credential/{credential}: a fresh access token. */
    method GetOAuthCredential(responder: Responder, provider: string, credentialId: string, x: HttpExchange)
      returns (sent: Option<TokenRequest>)
      modifies responder
      ensures var o := GetOAuthCredentialOutcome(store.State(), provider, credentialId, x, urls);
        sent == o.sent && responder.responses == old(responder.responses) + [o.response]
    {
      sent := None;
      var p := GetProvider(provider);
      if p.Failure? {
        responder.Send(Respond(p.error));
        return;
      }
      var rt := GetRefreshToken(provider, credentialId);
      if rt.Failure? {
        responder.Send(Respond(rt.error));
        return;
      }
      var request := AccessTokenRequest(p.value, rt.value.refreshToken, urls);
      if request.Failure? {
        responder.Send(Respond(request.error));
        return;
      }
      sent := Some(request.value);
      var token := AccessTokenFrom(x);
      if token.Failure? {
        responder.Send(Respond(token.error));
        return;
      }
      responder.Send(SendAccessToken(token.value.accessToken, token.value.instanceURL));
    }

    /** GET …/credential/{credential}/valid. */
    method GetOAuthCredentialValidity(responder: Responder, provider: string, credentialId: string, x: HttpExchange)
      returns (sent: Option<TokenRequest>)
      modifies responder
      ensures var o := ValidityOutcome(store.State(), provider, credentialId, x, urls);
        sent == o.sent && responder.responses == old(responder.responses) + [o.response]
    {
      sent := None;
      var p := GetProvider(provider);
      if p.Failure? {
        responder.Send(Respond(p.error));
        return;
      }
      var rt := GetRefreshToken(provider, credentialId);
      if rt.Failure? {
        responder.Send(Respond(rt.error));
        return;
      }
      var request := AccessTokenRequest(p.value, rt.value.refreshToken, urls);
      if request.Failure? {
        responder.Send(Respond(request.error));
        return;
      }
      sent := Some(request.value);
      if x.IOFailure? {
        responder.Send(Respond(ServiceException(HTTP_INTERNAL_ERROR, "Error while fetching refresh token")));
        return;
      }
      var valid := CheckCredIsValid(x.code, x.parsed);
      if valid.Failure? {
        responder.Send(Respond(valid.error));
        return;
      }
      responder.Send(SendValidity(valid.value));
    }
  }

  /** Registering a provider, exchanging a code for a refresh token, then
      asking for an access token: the access-token request carries the
      stored refresh token. */
  method RegisterThenFetch(handler: OAuthHandler, responder: Responder, name: string, providerBody: PutOAuthProviderRequest,
                           credentialId: string, code: string, redirectURI: string, refreshToken: string, accessToken: string)
    returns (sent: Option<TokenRequest>)
    requires !handler.store.readFails && !handler.store.writeFails
    requires providerBody.clientId.Some? && providerBody.clientSecret.Some?
    requires CheckUrl(providerBody.loginURL, handler.urls).Success? && CheckUrl(providerBody.tokenRefreshURL, handler.urls).Success?
    requires handler.urls(CheckUrl(providerBody.tokenRefreshURL, handler.urls).value).Success?
    requires code != "" && redirectURI != "" && refreshToken != "" && accessToken != ""
    modifies handler.store, responder
    ensures |responder.responses| == |old(responder.responses)| + 3
    ensures responder.responses[|responder.responses| - 1] == SendAccessToken(accessToken, None)
    ensures sent.Some? && sent.value.body ==
      AccessTokenRequestBody(OAuthClientCredentials(providerBody.clientId.value, providerBody.clientSecret.value), refreshToken)
  {
    handler.PutOAuthProvider(responder, name, Document(providerBody), false);
    var p := ProviderFromRequest(name, Document(providerBody), false, handler.urls).value;
    assert handler.store.providers[name] == p;
    CredentialThenAccessToken(handler.store.State(), name, credentialId, p, handler.urls,
                              code, redirectURI, refreshToken, accessToken, None);
    var putBody := Document(PutOAuthCredentialRequest(Some(code), Some(redirectURI)));
    var refreshReply := Reply(HTTP_OK, "OK", "", Document(RefreshTokenResponse(Some(refreshToken), None, None)));
    var _ := handler.PutOAuthCredential(responder, name, credentialId, putBody, refreshReply);
    var accessReply := Reply(HTTP_OK, "OK", "", Document(RefreshTokenResponse(None, Some(accessToken), None)));
    sent := handler.GetOAuthCredential(responder, name, credentialId, accessReply);
  }
}
