// Sign-in of the Deno generation (api/auth.ts): the same four hops and the
// profile, each reading the JSON body without looking at the status; a
// failed request, a body that does not parse, or a missing claim throws.
module DenoAuth {
  import opened Wrappers
  import opened Web
  import opened FileSystem
  import opened Oauth
  import opened PkgAuthStore
  import PkgAuth

  const ClientID := "6a533aa3-afbf-45a4-91bc-8c35a37e35c7"
  const Scope := "XboxLive.SignIn,offline_access"
  const RedirectURI := "http://localhost:8000/signin"

  /** The `TypeError` of `xui[0].uhs` on an empty claim list. */
  const NoClaim := "TypeError: Cannot read properties of undefined (reading 'uhs')"

  /** What `getAuthData` resolves to. */
  datatype AuthData = AuthData(token: string, username: string, uuid: string, refresh: string)

  /** `(await fetch(request)).json()`. */
  function Json<T>(send: Transport, req: Request, decode: Bytes -> Result<T>): (r: Result<T>)
    ensures send(req).Err? ==> r == Err(send(req).error)
    ensures send(req).Ok? ==> r == decode(send(req).value.body)
  {
    match send(req)
    case Err(e) => Err(e)
    case Ok(resp) => decode(resp.body)
  }

  /** `getMsaAuthToken(authCode, refresh)`: the access and refresh tokens
      of the token response. */
  function MsaAuthToken(env: PkgAuth.Env, authCode: string, refresh: bool): (r: Result<(string, string)>)
    ensures var j := Json(env.send, PostForm(TokenURL, GrantForm(ClientID, Scope, RedirectURI, authCode, refresh)), env.decode.msa);
      && (r.Err? <==> j.Err?)
      && (r.Ok? ==> r.value == (j.value.accessToken, j.value.refreshToken))
  {
    match Json(env.send, PostForm(TokenURL, GrantForm(ClientID, Scope, RedirectURI, authCode, refresh)), env.decode.msa)
    case Err(e) => Err(e)
    case Ok(data) => Ok((data.accessToken, data.refreshToken))
  }

  /** `getXboxAuthData`: the token and the first claim's userhash. */
  function XboxAuthData(env: PkgAuth.Env, msaToken: string): (r: Result<(string, string)>)
    ensures var j := Json(env.send, PostXbl(RpsTicket(msaToken)), env.decode.xbl);
      && (r.Ok? <==> j.Ok? && |j.value.xui| > 0)
      && (r.Ok? ==> r.value == (j.value.token, j.value.xui[0]))
      && (j.Ok? && |j.value.xui| == 0 ==> r == Err(NoClaim))
  {
    match Json(env.send, PostXbl(RpsTicket(msaToken)), env.decode.xbl)
    case Err(e) => Err(e)
    case Ok(data) => if |data.xui| == 0 then Err(NoClaim) else Ok((data.token, data.xui[0]))
  }

  /** `getXstsToken`. */
  function XstsToken(env: PkgAuth.Env, xblToken: string): (r: Result<string>)
    ensures var j := Json(env.send, PostXsts([xblToken]), env.decode.xsts);
      && (r.Err? <==> j.Err?) && (r.Ok? ==> r.value == j.value.token)
  {
    match Json(env.send, PostXsts([xblToken]), env.decode.xsts)
    case Err(e) => Err(e)
    case Ok(data) => Ok(data.token)
  }

  /** `getMinecraftAuthToken`. */
  function MinecraftAuthToken(env: PkgAuth.Env, xstsToken: string, userhash: string): (r: Result<string>)
    ensures var j := Json(env.send, PostLogin(IdentityToken(userhash, xstsToken)), env.decode.minecraft);
      && (r.Err? <==> j.Err?) && (r.Ok? ==> r.value == j.value.accessToken)
  {
    match Json(env.send, PostLogin(IdentityToken(userhash, xstsToken)), env.decode.minecraft)
    case Err(e) => Err(e)
    case Ok(data) => Ok(data.accessToken)
  }

  /** `getProfileData`: the entitlements are requested first and only a
      failed request matters; then the profile's name and id. */
  function ProfileData(env: PkgAuth.Env, jwtToken: string): (r: Result<(string, string)>)
    ensures env.send(GetWithBearer(EntitlementsURL, Bearer(jwtToken))).Err? ==>
      r == Err(env.send(GetWithBearer(EntitlementsURL, Bearer(jwtToken))).error)
    ensures r.Ok? ==>
      var j := Json(env.send, GetWithBearer(ProfileURL, Bearer(jwtToken)), env.decode.profile);
      j.Ok? && r.value == (j.value.name, j.value.id)
  {
    match env.send(GetWithBearer(EntitlementsURL, Bearer(jwtToken)))
    case Err(e) => Err(e)
    case Ok(_) =>
      match Json(env.send, GetWithBearer(ProfileURL, Bearer(jwtToken)), env.decode.profile)
      case Err(e) => Err(e)
      case Ok(p) => Ok((p.name, p.id))
  }

  /** `if (refreshToken)`: absent and empty both mean "sign in anew". */
  predicate Truthy(refreshToken: Option<string>)
  {
    refreshToken.Some? && refreshToken.value != ""
  }

  /** `getAuthData(refreshToken)`, given the code the browser flow
      (`getMsaAuthCode`) would receive. */
  function AuthDataOf(env: PkgAuth.Env, refreshToken: Option<string>, authCode: string): (r: Result<AuthData>)
  {
    var msa := if Truthy(refreshToken) then MsaAuthToken(env, refreshToken.value, true) else MsaAuthToken(env, authCode, false);
    match msa
    case Err(e) => Err(e)
    case Ok((msaToken, newRefresh)) =>
      match XboxAuthData(env, msaToken)
      case Err(e) => Err(e)
      case Ok((xblToken, userhash)) =>
        match XstsToken(env, xblToken)
        case Err(e) => Err(e)
        case Ok(xsts) =>
          match MinecraftAuthToken(env, xsts, userhash)
          case Err(e) => Err(e)
          case Ok(jwt) =>
            match ProfileData(env, jwt)
            case Err(e) => Err(e)
            case Ok((username, uuid)) => Ok(AuthData(jwt, username, uuid, newRefresh))
  }

  /** The session carries the refresh token of the token response (not the
      one passed in), and the name and id of the profile fetched with its
      own token. */
  lemma SessionFromResponses(env: PkgAuth.Env, refreshToken: Option<string>, authCode: string)
    requires AuthDataOf(env, refreshToken, authCode).Ok?
    ensures var d := AuthDataOf(env, refreshToken, authCode).value;
      var msa := if Truthy(refreshToken) then MsaAuthToken(env, refreshToken.value, true) else MsaAuthToken(env, authCode, false);
      && msa.Ok? && d.refresh == msa.value.1
      && ProfileData(env, d.token) == Ok((d.username, d.uuid))
  {
  }

  /** A transport that answers the same bodies with any statuses: the
      statuses are never looked at. */
  ghost predicate SameBodies(a: Transport, b: Transport)
  {
    forall req :: (a(req).Ok? <==> b(req).Ok?)
      && (a(req).Ok? ==> a(req).value.body == b(req).value.body)
      && (a(req).Err? ==> a(req).error == b(req).error)
  }

  /** The Deno chain never checks a status: an error page in JSON is read
      like a success, so two networks that differ only in statuses give the
      same outcome. */
  lemma StatusNeverChecked(env: PkgAuth.Env, other: Transport, refreshToken: Option<string>, authCode: string)
    requires SameBodies(env.send, other)
    ensures AuthDataOf(env, refreshToken, authCode) == AuthDataOf(env.(send := other), refreshToken, authCode)
  {
    forall req ensures Json(env.send, req, env.decode.msa) == Json(other, req, env.decode.msa)
      && Json(env.send, req, env.decode.xbl) == Json(other, req, env.decode.xbl)
      && Json(env.send, req, env.decode.xsts) == Json(other, req, env.decode.xsts)
      && Json(env.send, req, env.decode.minecraft) == Json(other, req, env.decode.minecraft)
      && Json(env.send, req, env.decode.profile) == Json(other, req, env.decode.profile)
      && env.send(req).Err? == other(req).Err?
    {
    }
  }

  /** The browser flow only matters without a refresh token. */
  lemma CodeOnlyWithoutRefreshToken(env: PkgAuth.Env, refreshToken: Option<string>, c1: string, c2: string)
    requires Truthy(refreshToken)
    ensures AuthDataOf(env, refreshToken, c1) == AuthDataOf(env, refreshToken, c2)
  {
  }

  // ---------------------------------------------------------------------
  // getMsaAuthCode: the local server behind the redirect URI

  /** One request the local server receives: its path and query. */
  datatype Incoming = Incoming(path: string, query: Form)

  /** The server's answer, and the code it records, if any. */
  datatype Reply = Reply(status: int, body: string, code: Option<string>)

  /** `url.searchParams.get("code")`, which is `null` when absent; sent on
      as a form value it becomes the text "null". */
  function CodeText(query: Form): string
  {
    if "code" in query then query["code"] else "null"
  }

  /** The handler given to `Deno.serve`: /signin records the code and ends
      the server; every other path is answered 404 and changes nothing. */
  function Handle(req: Incoming): (r: Reply)
    ensures r.code.Some? <==> req.path == "/signin"
    ensures r.status == (if req.path == "/signin" then 200 else 404)
    ensures r.code.Some? ==> r.code.value == CodeText(req.query)
  {
    if req.path == "/signin" then Reply(200, "Response recorded", Some(CodeText(req.query)))
    else Reply(404, "Not Found", None)
  }

  /** The position of the first request to /signin. */
  function FirstSignin(reqs: seq<Incoming>): (k: Option<nat>)
    ensures k.Some? ==> k.value < |reqs| && reqs[k.value].path == "/signin"
    ensures k.Some? ==> forall j :: 0 <= j < k.value ==> reqs[j].path != "/signin"
    ensures k.None? ==> forall j :: 0 <= j < |reqs| ==> reqs[j].path != "/signin"
  {
    if |reqs| == 0 then None
    else if reqs[0].path == "/signin" then Some(0)
    else
      match FirstSignin(reqs[1..])
      case None => None
      case Some(k) => Some(k + 1)
  }

  /** The code `getMsaAuthCode` resolves to, given the requests the server
      receives in order; `None` while no request has reached /signin. */
  function AuthCodeOf(reqs: seq<Incoming>): Option<string>
  {
    match FirstSignin(reqs)
    case None => None
    case Some(k) => Some(CodeText(reqs[k].query))
  }

  /** The server loop: each request is answered until the handler records a
      code, which shuts the server down. */
  method ServeAuthCode(reqs: seq<Incoming>) returns (authCode: Option<string>, replies: seq<Reply>)
    ensures authCode == AuthCodeOf(reqs)
    ensures |replies| == (if FirstSignin(reqs).Some? then FirstSignin(reqs).value + 1 else |reqs|)
    ensures forall j :: 0 <= j < |replies| ==> replies[j] == Handle(reqs[j])
  {
    authCode := None;
    replies := [];
    var i := 0;
    while i < |reqs| && authCode.None?
      invariant 0 <= i <= |reqs|
      invariant |replies| == i
      invariant forall j :: 0 <= j < i ==> replies[j] == Handle(reqs[j])
      invariant authCode.None? ==> forall j :: 0 <= j < i ==> reqs[j].path != "/signin"
      invariant authCode.Some? ==> 0 < i && FirstSignin(reqs) == Some(i - 1) && authCode == AuthCodeOf(reqs)
    {
      var reply := Handle(reqs[i]);
      replies := replies + [reply];
      if reply.code.Some? {
        authCode := reply.code;
        FirstSigninAt(reqs, i);
      }
      i := i + 1;
    }
  }

  /** A request to /signin preceded only by other paths is the first one. */
  lemma {:induction false} FirstSigninAt(reqs: seq<Incoming>, i: nat)
    requires i < |reqs| && reqs[i].path == "/signin"
    requires forall j :: 0 <= j < i ==> reqs[j].path != "/signin"
    ensures FirstSignin(reqs) == Some(i)
  {
    if i > 0 {
      assert forall j :: 0 <= j < i - 1 ==> reqs[1..][j] == reqs[j + 1];
      FirstSigninAt(reqs[1..], i - 1);
    }
  }

  /** A redirect without a code is not an error: the text "null" goes to
      the token endpoint as the code. */
  lemma MissingCodeSentAsNull(query: Form)
    requires "code" !in query
    ensures AuthCodeOf([Incoming("/signin", query)]) == Some("null")
  {
  }
}
