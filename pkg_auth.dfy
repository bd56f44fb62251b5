// Sign-in of the current Go launcher (pkg/auth/auth.go): the four hops of
// the Microsoft chain as requests over a transport, `Authenticate` walking
// the store's stages in order and refreshing only the ones no longer valid,
// and the two ways of obtaining the first Microsoft token (the redirect of
// the authorization code grant and the device code grant).
module PkgAuth {
  import opened Wrappers
  import opened Strs
  import opened Web
  import opened FileSystem
  import opened Oauth
  import opened PkgAuthStore
  import Network

  /** A `Session`. */
  datatype Session = Session(uuid: string, username: string, accessToken: string)

  datatype DeviceCodeResponse = DeviceCodeResponse(deviceCode: string, userCode: string, verificationURI: string,
                                                   expiresIn: int, interval: int, message: string)

  /** The JSON decoders of the response bodies; `Err` is `json.Unmarshal`'s
      error. */
  datatype Decoders = Decoders(
    msa: Bytes -> Result<MsaResponse>,
    xbl: Bytes -> Result<XblResponse>,
    xsts: Bytes -> Result<XstsResponse>,
    minecraft: Bytes -> Result<MinecraftResponse>,
    profile: Bytes -> Result<MinecraftProfile>,
    deviceCode: Bytes -> Result<DeviceCodeResponse>)

  datatype Env = Env(send: Transport, decode: Decoders)

  /** `network.CheckResponse` as error text. */
  function StatusError(requestMethod: string, url: string, status: int): (e: Option<string>)
    ensures e.None? <==> Success(status)
  {
    match Network.CheckResponse(requestMethod, url, status)
    case None => None
    case Some(err) => Some(Network.ErrorText(err))
  }

  /** `AuthCodeURL`: the authorize endpoint with the query of the
      authorization request. */
  function AuthCodeURL(clientID: string, redirectURI: string): (u: (string, Form))
    ensures u.0 == AuthorizeURL
    ensures u.1.Keys == {"client_id", "response_type", "redirect_uri", "scope", "response_mode"}
    ensures u.1["response_type"] == "code" && u.1["response_mode"] == "query" && u.1["scope"] == Scope
    ensures u.1["client_id"] == clientID && u.1["redirect_uri"] == redirectURI
  {
    (AuthorizeURL, AuthorizeQuery(clientID, redirectURI, Scope))
  }

  /** `FetchDeviceCode`: transport, status and decode errors in that
      order. */
  function FetchDeviceCode(env: Env, clientID: string): (r: Result<DeviceCodeResponse>)
    ensures var sent := env.send(PostForm(DeviceCodeURL, map["client_id" := clientID, "scope" := Scope]));
      && (sent.Err? ==> r == Err(sent.error))
      && (sent.Ok? && !Success(sent.value.status) ==> r.Err?)
      && (r.Ok? ==> sent.Ok? && Success(sent.value.status) && r == env.decode.deviceCode(sent.value.body))
  {
    match env.send(PostForm(DeviceCodeURL, map["client_id" := clientID, "scope" := Scope]))
    case Err(e) => Err(e)
    case Ok(resp) =>
      match StatusError("POST", DeviceCodeURL, resp.status)
      case Some(e) => Err(e)
      case None => env.decode.deviceCode(resp.body)
  }

  /** `authenticateMSA`: the token endpoint's answer decoded, whatever its
      status; an error response comes back as a value whose `error` field
      is set. */
  function AuthenticateMSA(env: Env, payload: Form): (r: Result<MsaResponse>)
    ensures var sent := env.send(PostForm(TokenURL, payload));
      && (sent.Err? ==> r == Err(sent.error))
      && (sent.Ok? ==> r == env.decode.msa(sent.value.body))
  {
    match env.send(PostForm(TokenURL, payload))
    case Err(e) => Err(e)
    case Ok(resp) => env.decode.msa(resp.body)
  }

  /** `authenticateXBL`: the MSA token as `d=<token>`, the status checked
      before the body is decoded. */
  function AuthenticateXBL(env: Env, msaAccessToken: string): (r: Result<XblResponse>)
    ensures var sent := env.send(PostXbl(RpsTicket(msaAccessToken)));
      r.Ok? ==> sent.Ok? && Success(sent.value.status) && r == env.decode.xbl(sent.value.body)
  {
    match env.send(PostXbl(RpsTicket(msaAccessToken)))
    case Err(e) => Err(e)
    case Ok(resp) =>
      match StatusError("POST", XblURL, resp.status)
      case Some(e) => Err(e)
      case None => env.decode.xbl(resp.body)
  }

  /** `authenticateXSTS`: the body is decoded first; a failing status with
      a non-zero `XErr` is reported by that code. */
  function AuthenticateXSTS(env: Env, xblToken: string): (r: Result<XstsResponse>)
    ensures var sent := env.send(PostXsts([xblToken]));
      && (r.Ok? ==> sent.Ok? && Success(sent.value.status) && r == env.decode.xsts(sent.value.body))
      && ((sent.Ok? && !Success(sent.value.status) && env.decode.xsts(sent.value.body).Ok? && env.decode.xsts(sent.value.body).value.xErr != 0)
            ==> r == Err("got error " + IntToString(env.decode.xsts(sent.value.body).value.xErr)))
  {
    match env.send(PostXsts([xblToken]))
    case Err(e) => Err(e)
    case Ok(resp) =>
      match env.decode.xsts(resp.body)
      case Err(e) => Err(e)
      case Ok(data) =>
        match StatusError("POST", XstsURL, resp.status)
        case Some(e) => if data.xErr != 0 then Err("got error " + IntToString(data.xErr)) else Err(e)
        case None => Ok(data)
  }

  /** The profile request of `authenticateMinecraft`, with the token the
      login returned; a failing status whose body names both an error and a
      message is reported by the error's name. */
  function FetchProfile(env: Env, accessToken: string): (r: Result<MinecraftProfile>)
    ensures var sent := env.send(GetWithBearer(ProfileURL, Bearer(accessToken)));
      && (r.Ok? ==> sent.Ok? && Success(sent.value.status) && r == env.decode.profile(sent.value.body))
      && ((sent.Ok? && !Success(sent.value.status) && env.decode.profile(sent.value.body).Ok?
            && env.decode.profile(sent.value.body).value.error != "" && env.decode.profile(sent.value.body).value.errorMessage != "")
            ==> r == Err(env.decode.profile(sent.value.body).value.error))
  {
    match env.send(GetWithBearer(ProfileURL, Bearer(accessToken)))
    case Err(e) => Err(e)
    case Ok(resp) =>
      match env.decode.profile(resp.body)
      case Err(e) => Err(e)
      case Ok(profile) =>
        match StatusError("GET", ProfileURL, resp.status)
        case Some(e) => if profile.error != "" && profile.errorMessage != "" then Err(profile.error) else Err(e)
        case None => Ok(profile)
  }

  /** `authenticateMinecraft`: the login with the identity token
      "XBL3.0 x=<userhash>;<xsts token>", then the profile. */
  function AuthenticateMinecraft(env: Env, xstsToken: string, userhash: string): (r: Result<(MinecraftResponse, MinecraftProfile)>)
    ensures var sent := env.send(PostLogin(IdentityToken(userhash, xstsToken)));
      r.Ok? ==> (sent.Ok? && Success(sent.value.status) && env.decode.minecraft(sent.value.body) == Ok(r.value.0)
                 && FetchProfile(env, r.value.0.accessToken) == Ok(r.value.1))
  {
    match env.send(PostLogin(IdentityToken(userhash, xstsToken)))
    case Err(e) => Err(e)
    case Ok(resp) =>
      match StatusError("POST", LoginURL, resp.status)
      case Some(e) => Err(e)
      case None =>
        match env.decode.minecraft(resp.body)
        case Err(e) => Err(e)
        case Ok(data) =>
          match FetchProfile(env, data.accessToken)
          case Err(e) => Err(e)
          case Ok(profile) => Ok((data, profile))
  }

  /** The hops over the transport, as the store's refreshes call them. */
  function EndpointsOf(env: Env): Endpoints
  {
    Endpoints(
      p => AuthenticateMSA(env, p),
      t => AuthenticateXBL(env, t),
      t => AuthenticateXSTS(env, t),
      (x, u) => AuthenticateMinecraft(env, x, u))
  }

  // ---------------------------------------------------------------------
  // Authenticate

  const ErrNoAccount := "no account found"

  datatype Stage = MsaHop | XblHop | XstsHop | MinecraftHop

  /** The context each stage's failure is wrapped in. */
  function Label(st: Stage): string
  {
    match st
    case MsaHop => "authenticate with MSA"
    case XblHop => "authenticate with Xbox Live"
    case XstsHop => "authenticate with XSTS"
    case MinecraftHop => "authenticate with Minecraft"
  }

  // Each stage: kept when valid, refreshed otherwise.

  function StepMsa(s: Snapshot, ep: Endpoints, clientID: string, now: int): (Option<string>, Snapshot)
  {
    if MsaValid(s.msa, now) then (None, s) else RefreshedMsa(s, ep, clientID, now)
  }

  function StepXbl(s: Snapshot, ep: Endpoints, now: int): (Option<string>, Snapshot)
  {
    if XblValid(s.xbl, now) then (None, s) else RefreshedXbl(s, ep)
  }

  function StepXsts(s: Snapshot, ep: Endpoints, now: int): (Option<string>, Snapshot)
  {
    if XstsValid(s.xsts, now) then (None, s) else RefreshedXsts(s, ep)
  }

  function StepMinecraft(s: Snapshot, ep: Endpoints, now: int): (Option<string>, Snapshot)
  {
    if MinecraftValid(s.minecraft, now) then (None, s) else RefreshedMinecraft(s, ep, now)
  }

  /** The stages in order, stopping at the first failure with its stage. */
  function Chain(s: Snapshot, ep: Endpoints, clientID: string, now: int): (Option<(Stage, string)>, Snapshot)
  {
    var (e1, s1) := StepMsa(s, ep, clientID, now);
    if e1.Some? then (Some((MsaHop, e1.value)), s1) else
    var (e2, s2) := StepXbl(s1, ep, now);
    if e2.Some? then (Some((XblHop, e2.value)), s2) else
    var (e3, s3) := StepXsts(s2, ep, now);
    if e3.Some? then (Some((XstsHop, e3.value)), s3) else
    var (e4, s4) := StepMinecraft(s3, ep, now);
    if e4.Some? then (Some((MinecraftHop, e4.value)), s4) else (None, s4)
  }

  function SessionOf(s: Snapshot): Session
  {
    Session(s.minecraft.uuid, s.minecraft.username, s.minecraft.accessToken)
  }

  /** The outcome of `Authenticate` and the store it leaves. */
  function Authenticated(s: Snapshot, ep: Endpoints, clientID: string, now: int): (r: (Result<Session>, Snapshot))
    ensures s.msa.refreshToken == "" ==> r == (Err(ErrNoAccount), s)
    ensures r.0.Ok? ==> r.0.value == SessionOf(r.1)
  {
    if s.msa.refreshToken == "" then (Err(ErrNoAccount), s)
    else
      var (failed, s1) := Chain(s, ep, clientID, now);
      if failed.Some? then (Err(Wrapped(Label(failed.value.0), failed.value.1)), s1)
      else (Ok(SessionOf(s1)), s1)
  }

  /** `Authenticate`: the store is written to the cache only when every
      stage succeeded. */
  method Authenticate(store: AuthStore, disk: Disk, ep: Endpoints, clientID: string, now: int,
                      path: string, encode: Snapshot -> Bytes) returns (r: Result<Session>)
    modifies store, disk
    ensures (r, store.State()) == Authenticated(old(store.State()), ep, clientID, now)
    ensures r.Ok? ==> disk.State() == old(disk.State()).WritePerm(path, encode(store.State()), 0x1a4)
    ensures r.Err? ==> disk.State() == old(disk.State())
  {
    ghost var s0 := store.State();
    if store.msa.refreshToken == "" {
      return Err(ErrNoAccount);
    }
    if !MsaValid(store.msa, now) {
      var err := store.RefreshMsa(ep, clientID, now);
      if err.Some? {
        return Err(Wrapped(Label(MsaHop), err.value));
      }
    }
    ghost var s1 := store.State();
    assert StepMsa(s0, ep, clientID, now) == (None, s1);
    if !XblValid(store.xbl, now) {
      var err := store.RefreshXbl(ep);
      if err.Some? {
        return Err(Wrapped(Label(XblHop), err.value));
      }
    }
    ghost var s2 := store.State();
    assert StepXbl(s1, ep, now) == (None, s2);
    if !XstsValid(store.xsts, now) {
      var err := store.RefreshXsts(ep);
      if err.Some? {
        return Err(Wrapped(Label(XstsHop), err.value));
      }
    }
    ghost var s3 := store.State();
    assert StepXsts(s2, ep, now) == (None, s3);
    if !MinecraftValid(store.minecraft, now) {
      var err := store.RefreshMinecraft(ep, now);
      if err.Some? {
        return Err(Wrapped(Label(MinecraftHop), err.value));
      }
    }
    store.WriteToCache(disk, path, encode);
    return Ok(Session(store.minecraft.uuid, store.minecraft.username, store.minecraft.accessToken));
  }

  /** The first failing stage ends the chain: that stage was not valid and
      is left as it was, and so is every later stage. */
  lemma ChainStopsAtFailure(s: Snapshot, ep: Endpoints, clientID: string, now: int)
    ensures var (failed, s1) := Chain(s, ep, clientID, now);
      && (failed.Some? && failed.value.0 == MsaHop ==> s1 == s && !MsaValid(s.msa, now))
      && (failed.Some? && failed.value.0 == XblHop ==> s1.xbl == s.xbl && s1.xsts == s.xsts && s1.minecraft == s.minecraft && !XblValid(s.xbl, now))
      && (failed.Some? && failed.value.0 == XstsHop ==> s1.xsts == s.xsts && s1.minecraft == s.minecraft && !XstsValid(s.xsts, now))
      && (failed.Some? && failed.value.0 == MinecraftHop ==> s1.minecraft == s.minecraft && !MinecraftValid(s.minecraft, now))
  {
  }

  /** A store whose stages are all still valid is used as it is: no hop is
      asked, whatever the endpoints would answer, and the session is the
      cached one. */
  lemma ValidStoreNeedsNoRequest(s: Snapshot, ep: Endpoints, ep2: Endpoints, clientID: string, now: int)
    requires s.msa.refreshToken != ""
    requires MsaValid(s.msa, now) && XblValid(s.xbl, now) && XstsValid(s.xsts, now) && MinecraftValid(s.minecraft, now)
    ensures Authenticated(s, ep, clientID, now) == (Ok(SessionOf(s)), s)
    ensures Authenticated(s, ep, clientID, now) == Authenticated(s, ep2, clientID, now)
  {
  }

  /** A stage that is valid is never refreshed, so a failure is always
      reported by a stage that needed refreshing; and the error text names
      that stage. */
  lemma FailureNamesStage(s: Snapshot, ep: Endpoints, clientID: string, now: int)
    requires Authenticated(s, ep, clientID, now).0.Err? && s.msa.refreshToken != ""
    ensures var (failed, _) := Chain(s, ep, clientID, now);
      failed.Some? && Authenticated(s, ep, clientID, now).0.error == Label(failed.value.0) + ": " + failed.value.1
  {
  }

  // ---------------------------------------------------------------------
  // AuthenticateWithRedirect

  /** The parts of `RedirectURI` the redirect flow reads. */
  datatype RedirectURI = RedirectURI(port: string, path: string, text: string)

  /** `params.Get(key)`: the empty string for a missing key. */
  function Param(q: Form, key: string): string
  {
    if key in q then q[key] else ""
  }

  /** The page the local server answers the browser with. */
  function CallbackPage(callback: Form, success: string, fail: string): string
  {
    if Param(callback, "error") != "" then fail + "\n" + Param(callback, "error_description") else success
  }

  /** The outcome of `AuthenticateWithRedirect` given the query the
      browser's redirect carries, and the store it leaves. */
  function RedirectAuthenticated(s: Snapshot, env: Env, clientID: string, redirect: RedirectURI, callback: Form, now: int): (r: (Result<Session>, Snapshot))
    ensures redirect.port == "" ==> r == (Err("redirect URL must have port specified"), s)
    ensures redirect.port != "" && Param(callback, "error") != "" ==> r == (Err("got error: " + Param(callback, "error_description")), s)
    ensures redirect.port != "" && Param(callback, "error") == "" && r.0.Ok? ==>
      var sent := AuthenticateMSA(env, GrantForm(clientID, Scope, redirect.text, Param(callback, "code"), false));
      sent.Ok? && r == Authenticated(s.(msa := WriteMsa(sent.value, now)), EndpointsOf(env), clientID, now)
  {
    if redirect.port == "" then (Err("redirect URL must have port specified"), s)
    else if Param(callback, "error") != "" then (Err("got error: " + Param(callback, "error_description")), s)
    else
      match AuthenticateMSA(env, GrantForm(clientID, Scope, redirect.text, Param(callback, "code"), false))
      case Err(e) => (Err(Wrapped("authenticate with MSA", e)), s)
      case Ok(resp) => Authenticated(s.(msa := WriteMsa(resp, now)), EndpointsOf(env), clientID, now)
  }

  /** `AuthenticateWithRedirect(success, fail)`: the code of the redirect is
      exchanged for tokens, which are stored before `Authenticate` runs. */
  method AuthenticateWithRedirect(store: AuthStore, disk: Disk, env: Env, clientID: string, redirect: RedirectURI,
                                  callback: Form, success: string, fail: string, now: int,
                                  path: string, encode: Snapshot -> Bytes) returns (r: Result<Session>, page: Option<string>)
    modifies store, disk
    ensures (r, store.State()) == RedirectAuthenticated(old(store.State()), env, clientID, redirect, callback, now)
    ensures page == (if redirect.port == "" then None else Some(CallbackPage(callback, success, fail)))
    ensures r.Ok? ==> disk.State() == old(disk.State()).WritePerm(path, encode(store.State()), 0x1a4)
    ensures r.Err? ==> disk.State() == old(disk.State())
  {
    if redirect.port == "" {
      return Err("redirect URL must have port specified"), None;
    }
    page := Some(CallbackPage(callback, success, fail));
    if Param(callback, "error") != "" {
      return Err("got error: " + Param(callback, "error_description")), page;
    }
    var code := Param(callback, "code");
    var resp := AuthenticateMSA(env, GrantForm(clientID, Scope, redirect.text, code, false));
    if resp.Err? {
      return Err(Wrapped("authenticate with MSA", resp.error)), page;
    }
    store.WriteMsaResponse(resp.value, now);
    r := Authenticate(store, disk, EndpointsOf(env), clientID, now, path, encode);
  }

  // ---------------------------------------------------------------------
  // AuthenticateWithCode

  const DeviceGrant := "urn:ietf:params:oauth:grant-type:device_code"

  /** The device code token request of section 3.4 of RFC 8628. */
  function DeviceForm(clientID: string, deviceCode: string): Form
  {
    map["grant_type" := DeviceGrant, "client_id" := clientID, "device_code" := deviceCode]
  }

  /** Where polling stands: still pending after every answer seen, failed,
      or granted with the tokens. */
  datatype Poll = Pending | Failed(error: string) | Granted(resp: MsaResponse)

  /** `fmt.Errorf("got error %q", err)` as written: `err` is nil at that
      point, so the message is the same for every error code. */
  const UnexpectedAsWritten := "got error %!q(<nil>)"

  /** The evidently intended message: the error code quoted. */
  function Unexpected(code: string): string
  {
    "got error " + Quote(code)
  }

  /** One answer of the token endpoint, dispatched on its `error` field;
      `None` means wait and poll again. */
  function Answer(sent: Result<MsaResponse>, asWritten: bool): (p: Option<Poll>)
    ensures sent.Ok? && sent.value.error == "authorization_pending" <==> p.None?
    ensures p == Some(Pending) ==> false
    ensures sent.Ok? && sent.value.error == "" ==> p == Some(Granted(sent.value))
  {
    match sent
    case Err(e) => Some(Failed(Wrapped("authenticate with MSA", e)))
    case Ok(resp) =>
      if resp.error == "authorization_pending" then None
      else if resp.error == "authorization_declined" then Some(Failed("authorization was declined"))
      else if resp.error == "" then Some(Granted(resp))
      else Some(Failed(if asWritten then UnexpectedAsWritten else Unexpected(resp.error)))
  }

  /** The answers in order until the first that is not pending. */
  function Polled(answers: seq<Result<MsaResponse>>, asWritten: bool): (p: Poll)
    ensures p.Pending? <==> forall i :: 0 <= i < |answers| ==> Answer(answers[i], asWritten).None?
  {
    if |answers| == 0 then Pending
    else
      match Answer(answers[0], asWritten)
      case Some(p) => p
      case None =>
        assert forall i :: 1 <= i < |answers| ==> answers[1..][i - 1] == answers[i];
        Polled(answers[1..], asWritten)
  }

  /** Polling ends with the first answer that is not pending: every
      earlier answer was pending. */
  lemma {:induction false} PolledFirstDecisive(answers: seq<Result<MsaResponse>>, asWritten: bool)
    ensures !Polled(answers, asWritten).Pending? ==>
      exists i :: 0 <= i < |answers| && Answer(answers[i], asWritten) == Some(Polled(answers, asWritten))
        && forall j :: 0 <= j < i ==> Answer(answers[j], asWritten).None?
  {
    if |answers| > 0 && Answer(answers[0], asWritten).None? {
      var rest := answers[1..];
      PolledFirstDecisive(rest, asWritten);
      if !Polled(rest, asWritten).Pending? {
        var i :| 0 <= i < |rest| && Answer(rest[i], asWritten) == Some(Polled(rest, asWritten))
          && forall j :: 0 <= j < i ==> Answer(rest[j], asWritten).None?;
        assert Answer(answers[i + 1], asWritten) == Some(Polled(answers, asWritten));
        assert forall j :: 1 <= j < i + 1 ==> answers[j] == rest[j - 1];
      }
    } else if |answers| > 0 {
      assert Answer(answers[0], asWritten) == Some(Polled(answers, asWritten));
    }
  }

  /** As written, an unexpected error code is lost: two different codes
      give the same message. */
  lemma UnexpectedCodeLost()
    ensures Polled([Ok(MsaResponse("", "", 0, "expired_token", ""))], true) == Polled([Ok(MsaResponse("", "", 0, "bad_verification_code", ""))], true)
    ensures Polled([Ok(MsaResponse("", "", 0, "expired_token", ""))], true) == Failed(UnexpectedAsWritten)
  {
  }

  /** With the intended message, the error code can be read back from it. */
  lemma UnexpectedCodeKept(a: string, b: string)
    ensures Unexpected(a) == Unexpected(b) ==> a == b
    ensures Polled([Ok(MsaResponse("", "", 0, "expired_token", ""))], false) == Failed(Unexpected("expired_token"))
  {
    if Unexpected(a) == Unexpected(b) {
      assert Quote(a) == Unexpected(a)[10..];
      assert Quote(b) == Unexpected(b)[10..];
    }
  }

  /** The outcome of `AuthenticateWithCode` given the token endpoint's
      successive answers: `None` while the user has not yet answered. */
  function CodeAuthenticated(s: Snapshot, env: Env, clientID: string, answers: seq<Result<MsaResponse>>, now: int): (r: (Option<Result<Session>>, Snapshot))
    ensures r.0.None? <==> Polled(answers, false).Pending?
    ensures Polled(answers, false).Failed? ==> r == (Some(Err(Polled(answers, false).error)), s)
  {
    match Polled(answers, false)
    case Pending => (None, s)
    case Failed(e) => (Some(Err(e)), s)
    case Granted(resp) =>
      var (a, s1) := Authenticated(s.(msa := WriteMsa(resp, now)), EndpointsOf(env), clientID, now);
      (Some(a), s1)
  }

  /** `AuthenticateWithCode(codeResp)`: the loop polls the token endpoint,
      sleeping `Interval` seconds after each pending answer. The n-th answer
      is `answers[n]`; when they run out while pending, the outcome is
      `None` and `waited` counts the seconds slept. */
  method AuthenticateWithCode(store: AuthStore, disk: Disk, env: Env, clientID: string, codeResp: DeviceCodeResponse,
                              answers: seq<Result<MsaResponse>>, now: int,
                              path: string, encode: Snapshot -> Bytes) returns (r: Option<Result<Session>>, waited: int)
    modifies store, disk
    ensures (r, store.State()) == CodeAuthenticated(old(store.State()), env, clientID, answers, now)
    ensures r.None? ==> waited == |answers| * codeResp.interval && disk.State() == old(disk.State())
  {
    waited := 0;
    var i := 0;
    while i < |answers|
      invariant 0 <= i <= |answers|
      invariant forall j :: 0 <= j < i ==> Answer(answers[j], false).None?
      invariant Polled(answers, false) == Polled(answers[i..], false)
      invariant waited == i * codeResp.interval
    {
      var sent := answers[i];
      assert answers[i..][0] == sent && answers[i..][1..] == answers[i + 1..];
      if sent.Err? {
        return Some(Err(Wrapped("authenticate with MSA", sent.error))), waited;
      }
      var resp := sent.value;
      if resp.error == "authorization_pending" {
        waited := waited + codeResp.interval;
        i := i + 1;
      } else if resp.error == "authorization_declined" {
        return Some(Err("authorization was declined")), waited;
      } else if resp.error == "" {
        store.WriteMsaResponse(resp, now);
        var a := Authenticate(store, disk, EndpointsOf(env), clientID, now, path, encode);
        return Some(a), waited;
      } else {
        return Some(Err(Unexpected(resp.error))), waited;
      }
    }
    assert answers[i..] == [];
    return None, waited;
  }
}
