// Sign-in of the early Go launcher (internal/auth/microsoft.go and
// internal/auth/store.go): each hop of the Microsoft chain returns the
// stage to keep, `LoginWithMicrosoft` redoes the stages that are missing or
// expired and always fetches the profile, and a single refresh token is
// kept in a JSON file.
module InternalAuth {
  import opened Wrappers
  import opened Strs
  import opened Web
  import opened FileSystem
  import opened Oauth
  import opened PkgAuthStore
  import PkgAuth

  const ClientID := "6a533aa3-afbf-45a4-91bc-8c35a37e35c7"
  const Scope := "XboxLive.SignIn,offline_access"
  const RedirectURL := "http://localhost:8000/signin"

  /** The Minecraft stage of this generation: the token and its expiry. */
  datatype McStage = McStage(accessToken: string, expires: int)

  /** The store `GetStore` returns and `SetStore` saves. */
  datatype Account = Account(msa: MsaStage, xbl: XblStage, xsts: XstsStage, minecraft: McStage)

  datatype LoginSession = LoginSession(token: string, uuid: string, username: string)

  /** `json.Unmarshal` with its error ignored: what does not decode is the
      zero value. */
  function OrZero<T>(r: Result<T>, zero: T): T
  {
    if r.Ok? then r.value else zero
  }

  const NoMsa := MsaResponse("", "", 0, "", "")
  const NoXbl := XblResponse("", [], 0)
  const NoXsts := XstsResponse("", 0, 0)
  const NoMinecraft := MinecraftResponse("", 0)
  const NoProfile := MinecraftProfile("", "", "", "")

  /** The parameters of `authenticateMSA(code, refresh)`. */
  function MsaParams(code: string, refresh: bool): (f: Form)
    ensures f == GrantForm(ClientID, Scope, RedirectURL, code, refresh)
    ensures f["grant_type"] == (if refresh then "refresh_token" else "authorization_code")
    ensures f[if refresh then "refresh_token" else "code"] == code
  {
    GrantForm(ClientID, Scope, RedirectURL, code, refresh)
  }

  /** `authenticateMSA(code, refresh)`: on a failing status, the body's
      `error_description` when both error fields are set, the status error
      otherwise; on success the tokens, expiring `expires_in` seconds from
      now. */
  function AuthenticateMSA(env: PkgAuth.Env, code: string, refresh: bool, now: int): (r: Result<MsaStage>)
    ensures var sent := env.send(PostForm(TokenURL, MsaParams(code, refresh)));
      && (sent.Err? ==> r == Err(sent.error))
      && (r.Ok? <==> sent.Ok? && Success(sent.value.status))
      && (r.Ok? ==> var data := OrZero(env.decode.msa(sent.value.body), NoMsa);
            r.value == MsaStage(data.accessToken, now + data.expiresIn, data.refreshToken))
      && ((sent.Ok? && !Success(sent.value.status)
           && OrZero(env.decode.msa(sent.value.body), NoMsa).error != ""
           && OrZero(env.decode.msa(sent.value.body), NoMsa).errorDescription != "")
          ==> r == Err(OrZero(env.decode.msa(sent.value.body), NoMsa).errorDescription))
  {
    match env.send(PostForm(TokenURL, MsaParams(code, refresh)))
    case Err(e) => Err(e)
    case Ok(resp) =>
      var data := OrZero(env.decode.msa(resp.body), NoMsa);
      match PkgAuth.StatusError("POST", TokenURL, resp.status)
      case Some(e) => if data.error != "" && data.errorDescription != "" then Err(data.errorDescription) else Err(e)
      case None => Ok(MsaStage(data.accessToken, now + data.expiresIn, data.refreshToken))
  }

  /** `authenticateXbox`: the status is checked, the body is decoded with
      its error ignored, and the first claim's userhash is taken. */
  function AuthenticateXbox(env: PkgAuth.Env, msaToken: string): (r: Result<XblStage>)
    ensures var sent := env.send(PostXbl(RpsTicket(msaToken)));
      r.Ok? ==> (sent.Ok? && Success(sent.value.status)
                 && var data := OrZero(env.decode.xbl(sent.value.body), NoXbl);
                 |data.xui| > 0 && r.value == XblStage(data.xui[0], data.token, data.notAfter))
  {
    match env.send(PostXbl(RpsTicket(msaToken)))
    case Err(e) => Err(e)
    case Ok(resp) =>
      match PkgAuth.StatusError("POST", XblURL, resp.status)
      case Some(e) => Err(e)
      case None =>
        var data := OrZero(env.decode.xbl(resp.body), NoXbl);
        WriteXbl(data)
  }

  /** `authenticateXSTS`: a failing status with a non-zero `XErr` gives
      "XSTS error <n>". */
  function AuthenticateXSTS(env: PkgAuth.Env, xblToken: string): (r: Result<XstsStage>)
    ensures var sent := env.send(PostXsts([xblToken]));
      && (r.Ok? <==> sent.Ok? && Success(sent.value.status))
      && (r.Ok? ==> r.value == WriteXsts(OrZero(env.decode.xsts(sent.value.body), NoXsts)))
      && ((sent.Ok? && !Success(sent.value.status) && OrZero(env.decode.xsts(sent.value.body), NoXsts).xErr != 0)
          ==> r == Err("XSTS error " + IntToString(OrZero(env.decode.xsts(sent.value.body), NoXsts).xErr)))
  {
    match env.send(PostXsts([xblToken]))
    case Err(e) => Err(e)
    case Ok(resp) =>
      var data := OrZero(env.decode.xsts(resp.body), NoXsts);
      match PkgAuth.StatusError("POST", XstsURL, resp.status)
      case Some(e) => if data.xErr != 0 then Err("XSTS error " + IntToString(data.xErr)) else Err(e)
      case None => Ok(WriteXsts(data))
  }

  /** `authenticateMinecraft`: the login with the identity token. */
  function AuthenticateMinecraft(env: PkgAuth.Env, xstsToken: string, userhash: string, now: int): (r: Result<McStage>)
    ensures var sent := env.send(PostLogin(IdentityToken(userhash, xstsToken)));
      && (r.Ok? <==> sent.Ok? && Success(sent.value.status))
      && (r.Ok? ==> var data := OrZero(env.decode.minecraft(sent.value.body), NoMinecraft);
            r.value == McStage(data.accessToken, now + data.expiresIn))
  {
    match env.send(PostLogin(IdentityToken(userhash, xstsToken)))
    case Err(e) => Err(e)
    case Ok(resp) =>
      match PkgAuth.StatusError("POST", LoginURL, resp.status)
      case Some(e) => Err(e)
      case None =>
        var data := OrZero(env.decode.minecraft(resp.body), NoMinecraft);
        Ok(McStage(data.accessToken, now + data.expiresIn))
  }

  /** `fetchMinecraftProfile`: a failing status whose body names both an
      error and a message gives "got error <error>: <message>". */
  function FetchMinecraftProfile(env: PkgAuth.Env, jwtToken: string): (r: Result<MinecraftProfile>)
    ensures var sent := env.send(GetWithBearer(ProfileURL, Bearer(jwtToken)));
      && (r.Ok? <==> sent.Ok? && Success(sent.value.status))
      && (r.Ok? ==> r.value == OrZero(env.decode.profile(sent.value.body), NoProfile))
  {
    match env.send(GetWithBearer(ProfileURL, Bearer(jwtToken)))
    case Err(e) => Err(e)
    case Ok(resp) =>
      var data := OrZero(env.decode.profile(resp.body), NoProfile);
      match PkgAuth.StatusError("GET", ProfileURL, resp.status)
      case Some(e) =>
        if data.error != "" && data.errorMessage != "" then Err("got error " + data.error + ": " + data.errorMessage) else Err(e)
      case None => Ok(data)
  }

  /** `getMSACodeInteractive`, given whether the browser opened and the
      query of the redirect to /signin. */
  function InteractiveCode(browserErr: Option<string>, callback: Form): (r: Result<string>)
    ensures browserErr.Some? ==> r == Err("open browser: " + browserErr.value)
    ensures browserErr.None? && PkgAuth.Param(callback, "error") != "" ==>
      r == Err("get MSA code interactively: " + PkgAuth.Param(callback, "error_description"))
    ensures r.Ok? ==> r.value == PkgAuth.Param(callback, "code")
  {
    if browserErr.Some? then Err("open browser: " + browserErr.value)
    else if PkgAuth.Param(callback, "error") != "" then Err("get MSA code interactively: " + PkgAuth.Param(callback, "error_description"))
    else Ok(PkgAuth.Param(callback, "code"))
  }

  // The redo conditions of `LoginWithMicrosoft`: a stage whose expiry is
  // exactly now is still used.

  predicate MsaStale(s: MsaStage, now: int)
  {
    s.accessToken == "" || s.expires < now
  }

  predicate XblStale(s: XblStage, now: int)
  {
    s.token == "" || s.userhash == "" || s.expires < now
  }

  predicate XstsStale(s: XstsStage, now: int)
  {
    s.token == "" || s.expires < now
  }

  predicate McStale(s: McStage, now: int)
  {
    s.accessToken == "" || s.expires < now
  }

  /** The MSA stage of `LoginWithMicrosoft`: kept when fresh, refreshed with
      the refresh token when there is one, else obtained interactively. */
  function MsaStep(a: Account, env: PkgAuth.Env, interactive: Result<string>, now: int): (r: Result<Account>)
    ensures r.Ok? ==> r.value.xbl == a.xbl && r.value.xsts == a.xsts && r.value.minecraft == a.minecraft
    ensures !MsaStale(a.msa, now) ==> r == Ok(a)
  {
    if !MsaStale(a.msa, now) then Ok(a)
    else if a.msa.refreshToken != "" then
      match AuthenticateMSA(env, a.msa.refreshToken, true, now)
      case Err(e) => Err(Wrapped("re-authenticate with MSA", e))
      case Ok(m) => Ok(a.(msa := m))
    else
      match interactive
      case Err(e) => Err(Wrapped("retrieve Microsoft authentication code", e))
      case Ok(code) =>
        match AuthenticateMSA(env, code, false, now)
        case Err(e) => Err(Wrapped("authenticate with MSA", e))
        case Ok(m) => Ok(a.(msa := m))
  }

  function XblStep(a: Account, env: PkgAuth.Env, now: int): (r: Result<Account>)
  {
    if !XblStale(a.xbl, now) then Ok(a)
    else
      match AuthenticateXbox(env, a.msa.accessToken)
      case Err(e) => Err(Wrapped("authenticate with XBL", e))
      case Ok(x) => Ok(a.(xbl := x))
  }

  function XstsStep(a: Account, env: PkgAuth.Env, now: int): (r: Result<Account>)
  {
    if !XstsStale(a.xsts, now) then Ok(a)
    else
      match AuthenticateXSTS(env, a.xbl.token)
      case Err(e) => Err(Wrapped("authenticate with XSTS", e))
      case Ok(x) => Ok(a.(xsts := x))
  }

  function McStep(a: Account, env: PkgAuth.Env, now: int): (r: Result<Account>)
  {
    if !McStale(a.minecraft, now) then Ok(a)
    else
      match AuthenticateMinecraft(env, a.xsts.token, a.xbl.userhash, now)
      case Err(e) => Err(Wrapped("authenticate with Minecraft", e))
      case Ok(m) => Ok(a.(minecraft := m))
  }

  /** The outcome of `LoginWithMicrosoft` and the account handed to
      `SetStore`, if it is reached. */
  function LoggedIn(a: Account, env: PkgAuth.Env, interactive: Result<string>, setStore: Account -> Option<string>, now: int): (r: (Result<LoginSession>, Option<Account>))
    ensures r.0.Ok? ==> r.1.Some? && setStore(r.1.value).None?
  {
    match MsaStep(a, env, interactive, now)
    case Err(e) => (Err(e), None)
    case Ok(a1) =>
      match XblStep(a1, env, now)
      case Err(e) => (Err(e), None)
      case Ok(a2) =>
        match XstsStep(a2, env, now)
        case Err(e) => (Err(e), None)
        case Ok(a3) =>
          match McStep(a3, env, now)
          case Err(e) => (Err(e), None)
          case Ok(a4) =>
            match FetchMinecraftProfile(env, a4.minecraft.accessToken)
            case Err(e) => (Err(Wrapped("get Minecraft profile", e)), None)
            case Ok(profile) =>
              match setStore(a4)
              case Some(e) => (Err(Wrapped("set account store", e)), Some(a4))
              case None => (Ok(LoginSession(a4.minecraft.accessToken, profile.id, profile.name)), Some(a4))
  }

  /** The MSA part of `LoginWithMicrosoft`. */
  method RedoMsa(store: Account, env: PkgAuth.Env, interactive: Result<string>, now: int) returns (r: Result<Account>)
    ensures r == MsaStep(store, env, interactive, now)
  {
    if store.msa.accessToken == "" || store.msa.expires < now {
      if store.msa.refreshToken != "" {
        var m := AuthenticateMSA(env, store.msa.refreshToken, true, now);
        if m.Err? {
          return Err(Wrapped("re-authenticate with MSA", m.error));
        }
        return Ok(store.(msa := m.value));
      }
      if interactive.Err? {
        return Err(Wrapped("retrieve Microsoft authentication code", interactive.error));
      }
      var m := AuthenticateMSA(env, interactive.value, false, now);
      if m.Err? {
        return Err(Wrapped("authenticate with MSA", m.error));
      }
      return Ok(store.(msa := m.value));
    }
    return Ok(store);
  }

  /** The Xbox Live part of `LoginWithMicrosoft`. */
  method RedoXbl(store: Account, env: PkgAuth.Env, now: int) returns (r: Result<Account>)
    ensures r == XblStep(store, env, now)
  {
    if store.xbl.token == "" || store.xbl.userhash == "" || store.xbl.expires < now {
      var x := AuthenticateXbox(env, store.msa.accessToken);
      if x.Err? {
        return Err(Wrapped("authenticate with XBL", x.error));
      }
      return Ok(store.(xbl := x.value));
    }
    return Ok(store);
  }

  /** The XSTS part of `LoginWithMicrosoft`. */
  method RedoXsts(store: Account, env: PkgAuth.Env, now: int) returns (r: Result<Account>)
    ensures r == XstsStep(store, env, now)
  {
    if store.xsts.token == "" || store.xsts.expires < now {
      var x := AuthenticateXSTS(env, store.xbl.token);
      if x.Err? {
        return Err(Wrapped("authenticate with XSTS", x.error));
      }
      return Ok(store.(xsts := x.value));
    }
    return Ok(store);
  }

  /** The Minecraft part of `LoginWithMicrosoft`. */
  method RedoMinecraft(store: Account, env: PkgAuth.Env, now: int) returns (r: Result<Account>)
    ensures r == McStep(store, env, now)
  {
    if store.minecraft.accessToken == "" || store.minecraft.expires < now {
      var m := AuthenticateMinecraft(env, store.xsts.token, store.xbl.userhash, now);
      if m.Err? {
        return Err(Wrapped("authenticate with Minecraft", m.error));
      }
      return Ok(store.(minecraft := m.value));
    }
    return Ok(store);
  }

  /** `LoginWithMicrosoft`, given the store `GetStore` returned, the outcome
      of the interactive code flow, and `SetStore`: the stages are redone
      in order, each replacing its part of the store. */
  method LoginWithMicrosoft(stored: Account, env: PkgAuth.Env, interactive: Result<string>,
                            setStore: Account -> Option<string>, now: int) returns (r: Result<LoginSession>, saved: Option<Account>)
    ensures (r, saved) == LoggedIn(stored, env, interactive, setStore, now)
  {
    var store := stored;
    var step := RedoMsa(store, env, interactive, now);
    if step.Err? {
      return Err(step.error), None;
    }
    store := step.value;
    step := RedoXbl(store, env, now);
    if step.Err? {
      return Err(step.error), None;
    }
    store := step.value;
    step := RedoXsts(store, env, now);
    if step.Err? {
      return Err(step.error), None;
    }
    store := step.value;
    step := RedoMinecraft(store, env, now);
    if step.Err? {
      return Err(step.error), None;
    }
    store := step.value;
    var profile := FetchMinecraftProfile(env, store.minecraft.accessToken);
    if profile.Err? {
      return Err(Wrapped("get Minecraft profile", profile.error)), None;
    }
    saved := Some(store);
    var err := setStore(store);
    if err.Some? {
      return Err(Wrapped("set account store", err.value)), saved;
    }
    return Ok(LoginSession(store.minecraft.accessToken, profile.value.id, profile.value.name)), saved;
  }

  /** The profile is fetched on every login, even when no stage needed
      redoing: with every stage fresh, the session is exactly what the
      profile request and the cached Minecraft token give, and the cached
      account is saved unchanged. */
  lemma FreshAccountStillFetchesProfile(a: Account, env: PkgAuth.Env, interactive: Result<string>, setStore: Account -> Option<string>, now: int)
    requires !MsaStale(a.msa, now) && !XblStale(a.xbl, now) && !XstsStale(a.xsts, now) && !McStale(a.minecraft, now)
    ensures var (r, saved) := LoggedIn(a, env, interactive, setStore, now);
      && (FetchMinecraftProfile(env, a.minecraft.accessToken).Err? ==> r.Err? && saved.None?)
      && (r.Ok? ==>
            (saved == Some(a) && r.value.token == a.minecraft.accessToken
             && r.value.username == FetchMinecraftProfile(env, a.minecraft.accessToken).value.name
             && r.value.uuid == FetchMinecraftProfile(env, a.minecraft.accessToken).value.id))
  {
  }

  /** The interactive flow runs only when the MSA token is stale and no
      refresh token is kept: otherwise its outcome does not matter. */
  lemma InteractiveOnlyWithoutRefreshToken(a: Account, env: PkgAuth.Env, i1: Result<string>, i2: Result<string>, setStore: Account -> Option<string>, now: int)
    requires !MsaStale(a.msa, now) || a.msa.refreshToken != ""
    ensures LoggedIn(a, env, i1, setStore, now) == LoggedIn(a, env, i2, setStore, now)
  {
  }

  /** A stage expiring exactly now is reused here, while the current
      launcher's store counts it as no longer valid and refreshes it. */
  lemma ExpiryBoundaryDiffers(s: MsaStage, now: int)
    requires s.accessToken != "" && s.expires == now
    ensures !MsaStale(s, now) && !MsaValid(s, now)
  {
  }

  // ---------------------------------------------------------------------
  // internal/auth/store.go

  /** The JSON of the account file: `{"refresh": ...}`. */
  datatype AuthStoreData = AuthStoreData(refresh: string)

  /** `GetRefreshToken`: "" when the file cannot be read or does not
      decode. */
  function RefreshTokenIn(fs: Fs, path: string, decode: Bytes -> Result<AuthStoreData>): (t: string)
    ensures path !in fs.files ==> t == ""
    ensures path in fs.files && decode(fs.files[path]).Err? ==> t == ""
  {
    if path !in fs.files then ""
    else
      match decode(fs.files[path])
      case Err(_) => ""
      case Ok(d) => d.refresh
  }

  method GetRefreshToken(disk: Disk, path: string, decode: Bytes -> Result<AuthStoreData>) returns (t: string)
    ensures t == RefreshTokenIn(disk.State(), path, decode)
  {
    var cache := disk.Read(path);
    if cache.Err? {
      return "";
    }
    var store := decode(cache.value);
    if store.Err? {
      return "";
    }
    return store.value.refresh;
  }

  /** `SetRefreshToken(token)`: the file replaced, mode 0644 when it is
      created. */
  method SetRefreshToken(disk: Disk, path: string, encode: AuthStoreData -> Bytes, token: string)
    modifies disk
    ensures disk.State() == old(disk.State()).WritePerm(path, encode(AuthStoreData(token)), 0x1a4)
  {
    disk.WriteFilePerm(path, encode(AuthStoreData(token)), 0x1a4);
  }

  /** After `SetRefreshToken(t)`, `GetRefreshToken` returns `t`, provided
      the decoder reads back what the encoder writes. */
  lemma SetThenGet(fs: Fs, path: string, encode: AuthStoreData -> Bytes, decode: Bytes -> Result<AuthStoreData>, t: string)
    requires decode(encode(AuthStoreData(t))) == Ok(AuthStoreData(t))
    ensures RefreshTokenIn(fs.WritePerm(path, encode(AuthStoreData(t)), 0x1a4), path, decode) == t
  {
  }

  /** `IsLoggedIn`. */
  predicate LoggedInAt(fs: Fs, path: string, decode: Bytes -> Result<AuthStoreData>)
  {
    RefreshTokenIn(fs, path, decode) != ""
  }

  /** `Logout`: `os.Remove` deletes a file, or a directory with nothing
      under it; nothing at the path is "already logged out"; a directory
      holding anything is the removal's "directory not empty" error,
      wrapped. */
  function LoggedOut(fs: Fs, path: string): (r: (Option<string>, Fs))
    ensures path in fs.files ==> r == (None, fs.Remove(path))
    ensures path !in fs.files && path !in fs.dirs ==> r == (Some("already logged out"), fs)
    ensures path !in fs.files && fs.EmptyDir(path) ==> r == (None, fs.RemoveDir(path))
    ensures r.0.Some? ==> r.1 == fs
    ensures r.0.None? ==> path !in r.1.files && (path !in fs.files ==> path !in r.1.dirs)
  {
    if path in fs.files then (None, fs.Remove(path))
    else if path !in fs.dirs then (Some("already logged out"), fs)
    else if fs.EmptyDir(path) then (None, fs.RemoveDir(path))
    else (Some(Wrapped("remove account store", "remove " + path + ": directory not empty")), fs)
  }

  method Logout(disk: Disk, path: string) returns (err: Option<string>)
    modifies disk
    ensures (err, disk.State()) == LoggedOut(old(disk.State()), path)
  {
    if path in disk.files {
      disk.Remove(path);
      return None;
    }
    if !disk.Exists(path) {
      return Some("already logged out");
    }
    var empty := disk.IsEmptyDir(path);
    if empty {
      disk.RemoveDir(path);
      return None;
    }
    return Some(Wrapped("remove account store", "remove " + path + ": directory not empty"));
  }

  /** After a successful `Logout`, `IsLoggedIn` is false; a second `Logout`
      reports "already logged out". */
  lemma LogoutLogsOut(fs: Fs, path: string, decode: Bytes -> Result<AuthStoreData>)
    requires LoggedOut(fs, path).0.None?
    ensures !LoggedInAt(LoggedOut(fs, path).1, path, decode)
    ensures !(path in fs.files && path in fs.dirs) ==> LoggedOut(LoggedOut(fs, path).1, path).0 == Some("already logged out")
  {
  }
}
