// Sign-in of the first Go generation (pkg/api/auth.go): four hops checked
// with `CheckResponse`, decode failures ignored, and `GetAuthData` filling
// the session field by field, so that a failure part-way returns what was
// filled so far.
module PkgApiAuth {
  import opened Wrappers
  import opened Web
  import opened Oauth
  import opened PkgAuthStore
  import PkgAuth
  import GoUtil
  import PkgApi

  const ClientID := "6a533aa3-afbf-45a4-91bc-8c35a37e35c7"
  const Scope := "XboxLive.SignIn,offline_access"
  const RedirectURL := "http://localhost:8000/signin"

  /** `json.Unmarshal` whose error is dropped: what does not decode leaves
      the zero value. */
  function Decoded<T>(r: Result<T>, zero: T): T
  {
    if r.Ok? then r.value else zero
  }

  /** `getMsaAuthToken(code, refresh)`: the access and refresh tokens; a
      failed check returns the check's error. */
  function MsaAuthToken(env: PkgAuth.Env, code: string, refresh: bool): (r: Result<(string, string)>)
    ensures var sent := env.send(PostForm(TokenURL, GrantForm(ClientID, Scope, RedirectURL, code, refresh)));
      && (r.Err? <==> GoUtil.CheckResponse(sent, "POST", TokenURL).Some?)
      && (r.Err? ==> r.error == GoUtil.CheckResponse(sent, "POST", TokenURL).value)
      && (r.Ok? ==>
            (var data := Decoded(env.decode.msa(sent.value.body), MsaResponse("", "", 0, "", ""));
             r.value == (data.accessToken, data.refreshToken)))
  {
    var sent := env.send(PostForm(TokenURL, GrantForm(ClientID, Scope, RedirectURL, code, refresh)));
    match GoUtil.CheckResponse(sent, "POST", TokenURL)
    case Some(e) => Err(e)
    case None =>
      var data := Decoded(env.decode.msa(sent.value.body), MsaResponse("", "", 0, "", ""));
      Ok((data.accessToken, data.refreshToken))
  }

  /** `getXboxAuthData`: the Xbox Live token and the first claim's
      userhash. A body that does not decode leaves no claim, and indexing
      the empty claim list panics. */
  function XboxAuthData(env: PkgAuth.Env, msaToken: string): (r: Result<(string, string)>)
    ensures var sent := env.send(PostXbl(RpsTicket(msaToken)));
      && (GoUtil.CheckResponse(sent, "POST", XblURL).Some? ==> r == Err(GoUtil.CheckResponse(sent, "POST", XblURL).value))
      && (r.Ok? ==>
            (GoUtil.CheckResponse(sent, "POST", XblURL).None?
             && var data := Decoded(env.decode.xbl(sent.value.body), XblResponse("", [], 0));
             |data.xui| > 0 && r.value == (data.token, data.xui[0])))
  {
    var sent := env.send(PostXbl(RpsTicket(msaToken)));
    match GoUtil.CheckResponse(sent, "POST", XblURL)
    case Some(e) => Err(e)
    case None =>
      var data := Decoded(env.decode.xbl(sent.value.body), XblResponse("", [], 0));
      if |data.xui| == 0 then Err(XuiPanic) else Ok((data.token, data.xui[0]))
  }

  /** `getXSTSToken`. */
  function XSTSToken(env: PkgAuth.Env, xblToken: string): (r: Result<string>)
    ensures var sent := env.send(PostXsts([xblToken]));
      && (r.Err? <==> GoUtil.CheckResponse(sent, "POST", XstsURL).Some?)
      && (r.Ok? ==> r.value == Decoded(env.decode.xsts(sent.value.body), XstsResponse("", 0, 0)).token)
  {
    var sent := env.send(PostXsts([xblToken]));
    match GoUtil.CheckResponse(sent, "POST", XstsURL)
    case Some(e) => Err(e)
    case None => Ok(Decoded(env.decode.xsts(sent.value.body), XstsResponse("", 0, 0)).token)
  }

  /** `getMinecraftAuthToken`: the login with the identity token; on a
      failed check the token is empty. */
  function MinecraftAuthToken(env: PkgAuth.Env, xstsToken: string, userhash: string): (r: (string, Option<string>))
    ensures var sent := env.send(PostLogin(IdentityToken(userhash, xstsToken)));
      && r.1 == GoUtil.CheckResponse(sent, "POST", LoginURL)
      && (r.1.Some? ==> r.0 == "")
      && (r.1.None? ==> r.0 == Decoded(env.decode.minecraft(sent.value.body), MinecraftResponse("", 0)).accessToken)
  {
    var sent := env.send(PostLogin(IdentityToken(userhash, xstsToken)));
    match GoUtil.CheckResponse(sent, "POST", LoginURL)
    case Some(e) => ("", Some(e))
    case None => (Decoded(env.decode.minecraft(sent.value.body), MinecraftResponse("", 0)).accessToken, None)
  }

  /** `getMinecraftProfile`: name and id; on a failed check both are
      empty. */
  function MinecraftProfileOf(env: PkgAuth.Env, jwtToken: string): (r: (string, string, Option<string>))
    ensures var sent := env.send(GetWithBearer(ProfileURL, Bearer(jwtToken)));
      && r.2 == GoUtil.CheckResponse(sent, "GET", ProfileURL)
      && (r.2.Some? ==> r.0 == "" && r.1 == "")
      && (r.2.None? ==>
            (var p := Decoded(env.decode.profile(sent.value.body), MinecraftProfile("", "", "", ""));
             r.0 == p.name && r.1 == p.id))
  {
    var sent := env.send(GetWithBearer(ProfileURL, Bearer(jwtToken)));
    match GoUtil.CheckResponse(sent, "GET", ProfileURL)
    case Some(e) => ("", "", Some(e))
    case None =>
      var p := Decoded(env.decode.profile(sent.value.body), MinecraftProfile("", "", "", ""));
      (p.name, p.id, None)
  }

  const Empty := PkgApi.AuthData("", "", "", "")

  /** The MSA hop of `GetAuthData`: with no refresh token the code the
      browser flow returned is exchanged, otherwise the refresh token. */
  function MsaHop(env: PkgAuth.Env, refreshToken: string, code: string): Result<(string, string)>
  {
    if refreshToken == "" then MsaAuthToken(env, code, false) else MsaAuthToken(env, refreshToken, true)
  }

  /** The outcome of `GetAuthData(refreshToken)`, given the code the
      interactive flow would return: the session as far as it was filled,
      and the error. */
  function AuthDataObtained(env: PkgAuth.Env, refreshToken: string, code: string): (r: (PkgApi.AuthData, Option<string>))
  {
    match MsaHop(env, refreshToken, code)
    case Err(e) => (Empty, Some("failed to retrieve Microsoft authentication token (" + e + ")"))
    case Ok((msaToken, refresh)) =>
      var data := Empty.(refresh := refresh);
      match XboxAuthData(env, msaToken)
      case Err(e) => (data, Some("failed to authenticate with Xbox (" + e + ")"))
      case Ok((token, userhash)) =>
        match XSTSToken(env, token)
        case Err(e) => (data, Some("failed to authenticate with Xbox (" + e + ")"))
        case Ok(xsts) =>
          var (authToken, err) := MinecraftAuthToken(env, xsts, userhash);
          var data := data.(token := authToken);
          if err.Some? then (data, Some("couldn't get Minecraft authentication token (" + err.value + ")"))
          else
            var (username, uuid, err) := MinecraftProfileOf(env, authToken);
            var data := data.(username := username, uuid := uuid);
            if err.Some? then (data, Some("couldn't get Minecraft profile (" + err.value + ")"))
            else (data, None)
  }

  /** `GetAuthData`: `authData` is filled in as the hops succeed. */
  method GetAuthData(env: PkgAuth.Env, refreshToken: string, code: string) returns (authData: PkgApi.AuthData, err: Option<string>)
    ensures (authData, err) == AuthDataObtained(env, refreshToken, code)
  {
    authData := Empty;
    var msa: Result<(string, string)>;
    if refreshToken == "" {
      msa := MsaAuthToken(env, code, false);
    } else {
      msa := MsaAuthToken(env, refreshToken, true);
    }
    if msa.Err? {
      return authData, Some("failed to retrieve Microsoft authentication token (" + msa.error + ")");
    }
    var (msaToken, newRefresh) := msa.value;
    authData := authData.(refresh := newRefresh);
    var xbl := XboxAuthData(env, msaToken);
    if xbl.Err? {
      return authData, Some("failed to authenticate with Xbox (" + xbl.error + ")");
    }
    var (token, userhash) := xbl.value;
    var xsts := XSTSToken(env, token);
    if xsts.Err? {
      return authData, Some("failed to authenticate with Xbox (" + xsts.error + ")");
    }
    var (authToken, mcErr) := MinecraftAuthToken(env, xsts.value, userhash);
    authData := authData.(token := authToken);
    if mcErr.Some? {
      return authData, Some("couldn't get Minecraft authentication token (" + mcErr.value + ")");
    }
    var (username, uuid, profileErr) := MinecraftProfileOf(env, authToken);
    authData := authData.(username := username, uuid := uuid);
    if profileErr.Some? {
      return authData, Some("couldn't get Minecraft profile (" + profileErr.value + ")");
    }
    return authData, None;
  }

  /** A failure of the MSA hop hands back nothing; any later failure
      still hands back the new refresh token. */
  lemma RefreshKeptPastMsa(env: PkgAuth.Env, refreshToken: string, code: string)
    ensures MsaHop(env, refreshToken, code).Err? ==>
      AuthDataObtained(env, refreshToken, code)
        == (Empty, Some("failed to retrieve Microsoft authentication token (" + MsaHop(env, refreshToken, code).error + ")"))
    ensures MsaHop(env, refreshToken, code).Ok? ==>
      AuthDataObtained(env, refreshToken, code).0.refresh == MsaHop(env, refreshToken, code).value.1
  {
  }

  /** Success means the profile was fetched with the session's own token
      and gave the name and id. */
  lemma SuccessFillsEveryField(env: PkgAuth.Env, refreshToken: string, code: string)
    requires AuthDataObtained(env, refreshToken, code).1.None?
    ensures var data := AuthDataObtained(env, refreshToken, code).0;
      && MinecraftProfileOf(env, data.token).2.None?
      && data.username == MinecraftProfileOf(env, data.token).0
      && data.uuid == MinecraftProfileOf(env, data.token).1
  {
  }

  /** The browser flow is only used without a refresh token: with one, the
      code does not matter. */
  lemma CodeUsedOnlyWithoutRefreshToken(env: PkgAuth.Env, refreshToken: string, c1: string, c2: string)
    requires refreshToken != ""
    ensures AuthDataObtained(env, refreshToken, c1) == AuthDataObtained(env, refreshToken, c2)
  {
  }

  /** The Xbox Live and XSTS hops fail with the same prefix: from the
      message alone a caller cannot tell which of the two failed. */
  lemma XboxFailuresShareMessage(env: PkgAuth.Env, refreshToken: string, code: string, e: string)
    requires MsaHop(env, refreshToken, code).Ok?
    requires XboxAuthData(env, MsaHop(env, refreshToken, code).value.0) == Err(e)
      || (XboxAuthData(env, MsaHop(env, refreshToken, code).value.0).Ok?
          && XSTSToken(env, XboxAuthData(env, MsaHop(env, refreshToken, code).value.0).value.0) == Err(e))
    ensures AuthDataObtained(env, refreshToken, code).1 == Some("failed to authenticate with Xbox (" + e + ")")
  {
  }
}
