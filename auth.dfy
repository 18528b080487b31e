/**
 * The OAuth2 authorization-code flow of the crate (src/auth.rs): the two
 * fixed token endpoints as `Service`s, the authorize URL a user opens in a
 * browser, and the form the crate posts to exchange a code for a token.
 * The POST itself is not modelled; the text the crate reads back from the
 * JSON response is a parameter of `AccessTokenFromField`.
 */
module Auth {
  import Annis
  import Text

  /** The out-of-band redirect URI, used when no redirect is set. */
  const OutOfBand: string := "urn:ietf:wg:oauth:2.0:oob"
  const DefaultScope: string := "read"
  const AuthorizeEndpoint: string := "https://annict.com/oauth/authorize"
  const TokenInfoUrl: string := "https://api.annict.com/oauth/token/info"
  const RevokeUrl: string := "https://api.annict.com/oauth/revoke"

  /** The keys of the token-exchange form, in the order they are sent. */
  const TokenFormKeys: seq<string> := ["client_id", "client_secret", "grant_type", "redirect_uri", "code"]

  /** `OAuth`: the application's client id; `OAuth::client_id(id)` is `OAuth(id)`. */
  datatype OAuth = OAuth(clientId: string) {

    /** `OAuth::info`: GET /oauth/token/info with no params. */
    static function Info(): (s: Annis.Service)
      ensures s.verb == Annis.GET && s.url == TokenInfoUrl && s.params.None?
    {
      Annis.Service(Annis.GET, TokenInfoUrl, Annis.None)
    }

    /** `OAuth::revoke`: POST /oauth/revoke carrying the one pair `token = accessToken`. */
    static function Revoke(accessToken: string): (s: Annis.Service)
      ensures s.verb == Annis.POST && s.url == RevokeUrl
      ensures s.params.Some? && s.params.value == [("token", accessToken)]
    {
      Annis.Service(Annis.POST, RevokeUrl, Annis.Some([("token", accessToken)]))
    }

    /** `OAuth::authorize_url`: a new authorize-URL builder for this client id, with the defaults. */
    method AuthorizeUrlBuilder() returns (a: AuthorizeUrl)
      ensures fresh(a)
      ensures a.clientId == clientId && a.redirectUri == OutOfBand && a.scope == DefaultScope
    {
      a := new AuthorizeUrl(clientId);
    }

    /** `OAuth::access_token`: a new token-request builder for this client id, with the defaults. */
    method AccessTokenBuilder() returns (t: AccessToken)
      ensures fresh(t)
      ensures t.clientId == clientId && t.clientSecret == "" && t.code == "" && t.redirectUri == OutOfBand
    {
      t := new AccessToken(clientId);
    }
  }

  /** `AuthorizeUrl`: the fields of the URL a user visits to grant access. */
  class AuthorizeUrl {
    var clientId: string
    var redirectUri: string
    var scope: string

    /** `AuthorizeUrl::new`: out-of-band redirect and read scope. */
    constructor (clientId: string)
      ensures this.clientId == clientId && redirectUri == OutOfBand && scope == DefaultScope
    {
      this.clientId := clientId;
      redirectUri := OutOfBand;
      scope := DefaultScope;
    }

    /** A value written out field by field, `AuthorizeUrl { client_id, redirect_uri, scope }`. */
    constructor Literal(clientId: string, redirectUri: string, scope: string)
      ensures this.clientId == clientId && this.redirectUri == redirectUri && this.scope == scope
    {
      this.clientId := clientId;
      this.redirectUri := redirectUri;
      this.scope := scope;
    }

    /** `AuthorizeUrl::redirect_uri`: sets the redirect URI and nothing else. */
    method SetRedirectUri(redirectUri: string)
      modifies this
      ensures this.redirectUri == redirectUri
      ensures clientId == old(clientId) && scope == old(scope)
    {
      this.redirectUri := redirectUri;
    }

    /** `AuthorizeUrl::scope`: sets the scope and nothing else. */
    method SetScope(scope: string)
      modifies this
      ensures this.scope == scope
      ensures clientId == old(clientId) && redirectUri == old(redirectUri)
    {
      this.scope := scope;
    }

    /**
     * `AuthorizeUrl::build`: the endpoint, then a query string of four
     * `key=value` fields joined by `&`. The values are put in as they are,
     * without percent-encoding.
     */
    function Build(): (url: string)
      reads this
      ensures url == AuthorizeEndpoint + "?" + Text.Join(QueryFields(clientId, redirectUri, scope), '&')
    {
      var q := QueryFields(clientId, redirectUri, scope);
      Text.JoinFour(q[0], q[1], q[2], q[3], '&');
      AuthorizeEndpoint + "?" + "client_id=" + clientId + "&" + "redirect_uri=" + redirectUri
        + "&" + "response_type=code" + "&" + "scope=" + scope
    }
  }

  /** The four query fields of an authorize URL, in order. */
  function QueryFields(clientId: string, redirectUri: string, scope: string): seq<string> {
    ["client_id=" + clientId, "redirect_uri=" + redirectUri, "response_type=code", "scope=" + scope]
  }

  /**
   * A receiver that cuts the query string at `&` gets back the four fields,
   * in order, provided no value contains `&`.
   */
  lemma AuthorizeQueryReadsBack(a: AuthorizeUrl)
    requires '&' !in a.clientId && '&' !in a.redirectUri && '&' !in a.scope
    ensures var url := a.Build();
            var n := |AuthorizeEndpoint| + 1;
            |url| >= n && url[..n] == AuthorizeEndpoint + "?"
            && Text.Split(url[n..], '&') == QueryFields(a.clientId, a.redirectUri, a.scope)
  {
    var q := QueryFields(a.clientId, a.redirectUri, a.scope);
    var url := a.Build();
    var n := |AuthorizeEndpoint| + 1;
    assert url[n..] == Text.Join(q, '&');
    assert forall i :: 0 <= i < |q| ==> '&' !in q[i];
    Text.SplitJoin(q, '&');
  }

  /**
   * `OAuth::client_id(id).authorize_url().build()` is the URL with the
   * out-of-band redirect and the read scope, and equals `manualUrl`, the URL
   * built from a value written out by hand with those fields.
   */
  method DefaultAuthorizeUrl(clientId: string) returns (url: string, manualUrl: string)
    ensures url == manualUrl
    ensures url == AuthorizeEndpoint + "?" + "client_id=" + clientId + "&" + "redirect_uri=" + "urn:ietf:wg:oauth:2.0:oob"
                   + "&" + "response_type=code" + "&" + "scope=" + "read"
  {
    var a := OAuth(clientId).AuthorizeUrlBuilder();
    url := a.Build();
    var manual := new AuthorizeUrl.Literal(clientId, OutOfBand, DefaultScope);
    manualUrl := manual.Build();
  }

  /** `authorize_url().redirect_uri(r).scope(s).build()`: both overrides show up in the URL. */
  method CustomAuthorizeUrl(clientId: string, redirectUri: string, scope: string) returns (url: string)
    ensures url == AuthorizeEndpoint + "?" + "client_id=" + clientId + "&" + "redirect_uri=" + redirectUri
                   + "&" + "response_type=code" + "&" + "scope=" + scope
  {
    var a := OAuth(clientId).AuthorizeUrlBuilder();
    a.SetRedirectUri(redirectUri);
    a.SetScope(scope);
    url := a.Build();
  }

  /** `AccessToken`: the fields of the request that exchanges an authorization code for a token. */
  class AccessToken {
    var clientId: string
    var clientSecret: string
    var redirectUri: string
    var code: string

    /** `AccessToken::new`: empty secret and code, out-of-band redirect. */
    constructor (clientId: string)
      ensures this.clientId == clientId && clientSecret == "" && code == "" && redirectUri == OutOfBand
    {
      this.clientId := clientId;
      clientSecret := "";
      code := "";
      redirectUri := OutOfBand;
    }

    /** A value written out field by field, `AccessToken { client_id, client_secret, code, redirect_uri }`. */
    constructor Literal(clientId: string, clientSecret: string, code: string, redirectUri: string)
      ensures this.clientId == clientId && this.clientSecret == clientSecret
      ensures this.code == code && this.redirectUri == redirectUri
    {
      this.clientId := clientId;
      this.clientSecret := clientSecret;
      this.code := code;
      this.redirectUri := redirectUri;
    }

    /** `AccessToken::client_secret`: sets the secret and nothing else. */
    method SetClientSecret(clientSecret: string)
      modifies this
      ensures this.clientSecret == clientSecret
      ensures clientId == old(clientId) && redirectUri == old(redirectUri) && code == old(code)
    {
      this.clientSecret := clientSecret;
    }

    /** `AccessToken::code`: sets the authorization code and nothing else. */
    method SetCode(code: string)
      modifies this
      ensures this.code == code
      ensures clientId == old(clientId) && clientSecret == old(clientSecret) && redirectUri == old(redirectUri)
    {
      this.code := code;
    }

    /** `AccessToken::redirect_uri`: sets the redirect URI and nothing else. */
    method SetRedirectUri(redirectUri: string)
      modifies this
      ensures this.redirectUri == redirectUri
      ensures clientId == old(clientId) && clientSecret == old(clientSecret) && code == old(code)
    {
      this.redirectUri := redirectUri;
    }

    /**
     * The form `AccessToken::build` posts: one pair per key of
     * `TokenFormKeys`, in that order, each carrying its field, with the
     * grant type fixed to `authorization_code`.
     */
    function FormParams(): (form: seq<Annis.Param>)
      reads this
      ensures |form| == |TokenFormKeys|
      ensures forall i :: 0 <= i < |form| ==> form[i].0 == TokenFormKeys[i]
      ensures form[0].1 == clientId && form[1].1 == clientSecret && form[2].1 == "authorization_code"
              && form[3].1 == redirectUri && form[4].1 == code
    {
      [ ("client_id", clientId),
        ("client_secret", clientSecret),
        ("grant_type", "authorization_code"),
        ("redirect_uri", redirectUri),
        ("code", code) ]
    }
  }

  /**
   * `OAuth::client_id(id).access_token().client_secret(s).code(c)` posts the
   * same form as `manualForm`, the form of a value written out by hand with
   * those fields and the out-of-band redirect.
   */
  method TokenFormFor(clientId: string, clientSecret: string, code: string)
    returns (form: seq<Annis.Param>, manualForm: seq<Annis.Param>)
    ensures form == manualForm
    ensures form == [("client_id", clientId), ("client_secret", clientSecret),
                     ("grant_type", "authorization_code"), ("redirect_uri", OutOfBand), ("code", code)]
  {
    var t := OAuth(clientId).AccessTokenBuilder();
    t.SetClientSecret(clientSecret);
    t.SetCode(code);
    form := t.FormParams();
    var manual := new AccessToken.Literal(clientId, clientSecret, code, OutOfBand);
    manualForm := manual.FormParams();
  }

  /**
   * The tail of `AccessToken::build`: the text of the response's
   * `access_token` field, with every leading and trailing `"` removed.
   */
  function AccessTokenFromField(field: string): (token: string)
    ensures token == [] || (token[0] != '"' && token[|token| - 1] != '"')
    ensures |token| <= |field|
  {
    Text.TrimMatches(field, '"')
  }

  /**
   * A token that neither starts nor ends with `"` comes out of its JSON
   * string rendering (the token between two quotes) unchanged.
   */
  lemma AccessTokenUnquotes(token: string)
    requires token == [] || (token[0] != '"' && token[|token| - 1] != '"')
    ensures AccessTokenFromField("\"" + token + "\"") == token
  {
    Text.TrimMatchesUnwraps(token, '"');
  }

  /** Stripping quotes from an already stripped token changes nothing. */
  lemma AccessTokenFromFieldIdempotent(field: string)
    ensures AccessTokenFromField(AccessTokenFromField(field)) == AccessTokenFromField(field)
  {
    Text.TrimMatchesIdempotent(field, '"');
  }
}
