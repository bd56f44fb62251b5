// The Microsoft sign-in chain every launcher generation walks: an OAuth 2.0
// token from Microsoft (authorization code grant, section 4.1.3 of RFC 6749,
// or refresh, section 6 of RFC 6749), an Xbox Live user token, an XSTS
// token, and a Minecraft access token obtained with the identity token
// "XBL3.0 x=<userhash>;<xsts token>". The requests are values handed to a
// transport parameter.
module Oauth {
  import opened Wrappers
  import opened Strs
  import opened Web

  /** `url.Values` / `URLSearchParams` with one value per key. */
  type Form = map<string, string>

  const AuthorizeURL := "https://login.microsoftonline.com/consumers/oauth2/v2.0/authorize"
  const TokenURL := "https://login.microsoftonline.com/consumers/oauth2/v2.0/token"
  const DeviceCodeURL := "https://login.microsoftonline.com/consumers/oauth2/v2.0/devicecode"
  const XblURL := "https://user.auth.xboxlive.com/user/authenticate"
  const XstsURL := "https://xsts.auth.xboxlive.com/xsts/authorize"
  const LoginURL := "https://api.minecraftservices.com/authentication/login_with_xbox"
  const ProfileURL := "https://api.minecraftservices.com/minecraft/profile"
  const EntitlementsURL := "https://api.minecraftservices.com/entitlements/mcstore"

  /** A request of the chain. The fixed parts of the JSON bodies
      (AuthMethod "RPS", the site name, the relying parties, TokenType
      "JWT", SandboxId "RETAIL") belong to the constructor. */
  datatype Request =
    | PostForm(url: string, form: Form)
    | PostXbl(rpsTicket: string)
    | PostXsts(userTokens: seq<string>)
    | PostLogin(identityToken: string)
    | GetWithBearer(url: string, authorization: string)

  /** What the network answers to each request; `Err` is a transport
      failure. */
  type Transport = Request -> Result<Response>

  /** The query of the authorization request: the client, `response_type`
      code, the redirect URI, the scope and `response_mode` query. */
  function AuthorizeQuery(clientID: string, redirectURI: string, scope: string): (q: Form)
    ensures q.Keys == {"client_id", "response_type", "redirect_uri", "scope", "response_mode"}
    ensures q["client_id"] == clientID && q["redirect_uri"] == redirectURI && q["scope"] == scope
    ensures q["response_type"] == "code" && q["response_mode"] == "query"
  {
    map["client_id" := clientID, "response_type" := "code", "redirect_uri" := redirectURI,
        "scope" := scope, "response_mode" := "query"]
  }

  /** The parameter carrying the credential of a token request. */
  function CredentialKey(refresh: bool): string
  {
    if refresh then "refresh_token" else "code"
  }

  /** The token request shared by the Go and Deno launchers: client, scope
      and redirect URI, then the grant type and the credential under the
      grant's own parameter name. */
  function GrantForm(clientID: string, scope: string, redirectURI: string, credential: string, refresh: bool): (f: Form)
    ensures f.Keys == {"client_id", "scope", "redirect_uri", "grant_type", CredentialKey(refresh)}
    ensures f["client_id"] == clientID && f["scope"] == scope && f["redirect_uri"] == redirectURI
    ensures f["grant_type"] == (if refresh then "refresh_token" else "authorization_code")
    ensures f[CredentialKey(refresh)] == credential
  {
    map["client_id" := clientID, "scope" := scope, "redirect_uri" := redirectURI,
        "grant_type" := (if refresh then "refresh_token" else "authorization_code")][CredentialKey(refresh) := credential]
  }

  /** The server can tell the grant from the form alone: the grant type
      names it, exactly one of `code` and `refresh_token` is sent, and the
      credential is the one given. */
  lemma GrantFormDetermines(clientID: string, scope: string, redirectURI: string, credential: string, refresh: bool)
    ensures var f := GrantForm(clientID, scope, redirectURI, credential, refresh);
      && (refresh <==> f["grant_type"] == "refresh_token")
      && (refresh <==> "refresh_token" in f)
      && (!refresh <==> "code" in f)
      && (if "code" in f then f["code"] else f["refresh_token"]) == credential
  {
  }

  /** `RpsTicket` of the Xbox Live request. */
  function RpsTicket(msaToken: string): string
  {
    "d=" + msaToken
  }

  const IdentityPrefix := "XBL3.0 x="

  /** `fmt.Sprintf("XBL3.0 x=%s;%s", userhash, xstsToken)`. */
  function IdentityToken(userhash: string, xstsToken: string): (t: string)
    ensures |t| == |IdentityPrefix| + |userhash| + 1 + |xstsToken|
    ensures t[..|IdentityPrefix|] == IdentityPrefix
  {
    IdentityPrefix + userhash + ";" + xstsToken
  }

  /** The position of the first ';' in `s`. */
  function FirstSemicolon(s: string): (k: Option<nat>)
    ensures k.Some? ==> k.value < |s| && s[k.value] == ';' && ';' !in s[..k.value]
    ensures k.None? ==> ';' !in s
  {
    if |s| == 0 then None
    else if s[0] == ';' then Some(0)
    else
      match FirstSemicolon(s[1..])
      case None => None
      case Some(k) =>
        assert s[..k + 1] == [s[0]] + s[1..][..k];
        Some(k + 1)
  }

  /** How a receiver reads an identity token back: the userhash up to the
      first ';' after the prefix, the XSTS token after it. */
  function ParseIdentity(t: string): (r: Option<(string, string)>)
    ensures r.Some? ==> IdentityToken(r.value.0, r.value.1) == t
  {
    if |t| < |IdentityPrefix| || t[..|IdentityPrefix|] != IdentityPrefix then None
    else
      var rest := t[|IdentityPrefix|..];
      match FirstSemicolon(rest)
      case None => None
      case Some(k) =>
        assert t == IdentityPrefix + rest[..k] + ";" + rest[k + 1..];
        Some((rest[..k], rest[k + 1..]))
  }

  /** The identity token round-trips whenever the userhash has no ';'. */
  lemma IdentityRoundTrip(userhash: string, xstsToken: string)
    requires ';' !in userhash
    ensures ParseIdentity(IdentityToken(userhash, xstsToken)) == Some((userhash, xstsToken))
  {
    var t := IdentityToken(userhash, xstsToken);
    var rest := t[|IdentityPrefix|..];
    assert rest == userhash + ";" + xstsToken;
    assert rest[|userhash|] == ';';
    assert rest[..|userhash|] == userhash;
    assert rest[|userhash| + 1..] == xstsToken;
  }

  /** The `Authorization` header value. */
  function Bearer(token: string): string
  {
    "Bearer " + token
  }
}
