// The authentication store of the current Go launcher (pkg/auth/store.go):
// one stage per hop of the Microsoft sign-in chain, each with its validity
// test, the write of a fresh response and the refresh that calls the hop's
// endpoint; the whole store is cached as JSON in one file.
module PkgAuthStore {
  import opened Wrappers
  import opened FileSystem
  import opened Oauth

  /** The scope the current Go launcher asks for. */
  const Scope := "XboxLive.signin offline_access"

  /** The Go runtime's message for `Xui[0]` of an empty claim list. */
  const XuiPanic := "runtime error: index out of range [0] with length 0"

  // Responses of the four hops, as far as the launcher reads them. Times are
  // whole seconds.
  datatype MsaResponse = MsaResponse(accessToken: string, refreshToken: string, expiresIn: int, error: string, errorDescription: string)
  datatype XblResponse = XblResponse(token: string, xui: seq<string>, notAfter: int)
  datatype XstsResponse = XstsResponse(token: string, notAfter: int, xErr: int)
  datatype MinecraftResponse = MinecraftResponse(accessToken: string, expiresIn: int)
  datatype MinecraftProfile = MinecraftProfile(name: string, id: string, error: string, errorMessage: string)

  // The four stages of the store.
  datatype MsaStage = MsaStage(accessToken: string, expires: int, refreshToken: string)
  datatype XblStage = XblStage(userhash: string, token: string, expires: int)
  datatype XstsStage = XstsStage(token: string, expires: int)
  datatype MinecraftStage = MinecraftStage(accessToken: string, expires: int, username: string, uuid: string)

  /** The contents of an `AuthStore`. */
  datatype Snapshot = Snapshot(msa: MsaStage, xbl: XblStage, xsts: XstsStage, minecraft: MinecraftStage)

  /** `AuthStore{}`: every token empty, every expiry the zero time. */
  const Empty := Snapshot(MsaStage("", 0, ""), XblStage("", "", 0), XstsStage("", 0), MinecraftStage("", 0, "", ""))

  /** The hops as the store's refreshes call them. */
  datatype Endpoints = Endpoints(
    msa: Form -> Result<MsaResponse>,
    xbl: string -> Result<XblResponse>,
    xsts: string -> Result<XstsResponse>,
    minecraft: (string, string) -> Result<(MinecraftResponse, MinecraftProfile)>)

  predicate MsaValid(s: MsaStage, now: int)
  {
    s.accessToken != "" && s.expires > now
  }

  predicate XblValid(s: XblStage, now: int)
  {
    s.token != "" && s.userhash != "" && s.expires > now
  }

  predicate XstsValid(s: XstsStage, now: int)
  {
    s.token != "" && s.expires > now
  }

  predicate MinecraftValid(s: MinecraftStage, now: int)
  {
    s.accessToken != "" && s.expires > now
  }

  /** A freshly written stage is valid exactly when the response carried a
      token (and, for Xbox Live, a userhash) that expires after now. */
  lemma WrittenStagesValidity(m: MsaResponse, x: XblResponse, t: XstsResponse, c: MinecraftResponse, p: MinecraftProfile, now: int)
    ensures MsaValid(WriteMsa(m, now), now) <==> m.accessToken != "" && m.expiresIn > 0
    ensures WriteXbl(x).Ok? ==> (XblValid(WriteXbl(x).value, now) <==> x.token != "" && x.xui[0] != "" && x.notAfter > now)
    ensures XstsValid(WriteXsts(t), now) <==> t.token != "" && t.notAfter > now
    ensures MinecraftValid(WriteMinecraft(c, p, now), now) <==> c.accessToken != "" && c.expiresIn > 0
  {
  }

  /** `msaAuthStore.write`: both tokens replaced, expiring `ExpiresIn`
      seconds from now. */
  function WriteMsa(resp: MsaResponse, now: int): MsaStage
  {
    MsaStage(resp.accessToken, now + resp.expiresIn, resp.refreshToken)
  }

  /** `xblAuthStore.write`: the userhash of the first claim, which panics
      when there is none. */
  function WriteXbl(resp: XblResponse): (r: Result<XblStage>)
    ensures r.Err? <==> |resp.xui| == 0
    ensures r.Ok? ==> r.value == XblStage(resp.xui[0], resp.token, resp.notAfter)
  {
    if |resp.xui| == 0 then Err(XuiPanic) else Ok(XblStage(resp.xui[0], resp.token, resp.notAfter))
  }

  function WriteXsts(resp: XstsResponse): XstsStage
  {
    XstsStage(resp.token, resp.notAfter)
  }

  /** `minecraftAuthStore.write`: the token with its expiry, and the
      profile's name and id. */
  function WriteMinecraft(resp: MinecraftResponse, profile: MinecraftProfile, now: int): MinecraftStage
  {
    MinecraftStage(resp.accessToken, now + resp.expiresIn, profile.name, profile.id)
  }

  /** The refresh request: client, scope, the refresh grant and the stored
      refresh token, without a redirect URI. */
  function MsaRefreshForm(clientID: string, refreshToken: string): (f: Form)
    ensures f.Keys == {"client_id", "scope", "grant_type", "refresh_token"}
    ensures f["grant_type"] == "refresh_token" && f["refresh_token"] == refreshToken && f["client_id"] == clientID
  {
    map["client_id" := clientID, "scope" := Scope, "grant_type" := "refresh_token", "refresh_token" := refreshToken]
  }

  // What each refresh leaves: the hop's error and the store untouched, or
  // the store with only that stage rewritten.

  function RefreshedMsa(s: Snapshot, ep: Endpoints, clientID: string, now: int): (r: (Option<string>, Snapshot))
    ensures r.0.Some? ==> r.1 == s
    ensures r.0.None? ==> r.1 == s.(msa := r.1.msa)
  {
    match ep.msa(MsaRefreshForm(clientID, s.msa.refreshToken))
    case Err(e) => (Some(e), s)
    case Ok(resp) => (None, s.(msa := WriteMsa(resp, now)))
  }

  function RefreshedXbl(s: Snapshot, ep: Endpoints): (r: (Option<string>, Snapshot))
    ensures r.0.Some? ==> r.1 == s
    ensures r.0.None? ==> r.1 == s.(xbl := r.1.xbl)
  {
    match ep.xbl(s.msa.accessToken)
    case Err(e) => (Some(e), s)
    case Ok(resp) =>
      match WriteXbl(resp)
      case Err(p) => (Some(p), s)
      case Ok(stage) => (None, s.(xbl := stage))
  }

  function RefreshedXsts(s: Snapshot, ep: Endpoints): (r: (Option<string>, Snapshot))
    ensures r.0.Some? ==> r.1 == s
    ensures r.0.None? ==> r.1 == s.(xsts := r.1.xsts)
  {
    match ep.xsts(s.xbl.token)
    case Err(e) => (Some(e), s)
    case Ok(resp) => (None, s.(xsts := WriteXsts(resp)))
  }

  function RefreshedMinecraft(s: Snapshot, ep: Endpoints, now: int): (r: (Option<string>, Snapshot))
    ensures r.0.Some? ==> r.1 == s
    ensures r.0.None? ==> r.1 == s.(minecraft := r.1.minecraft)
  {
    match ep.minecraft(s.xsts.token, s.xbl.userhash)
    case Err(e) => (Some(e), s)
    case Ok(pair) => (None, s.(minecraft := WriteMinecraft(pair.0, pair.1, now)))
  }

  /** The global `Store`. */
  class AuthStore {
    var msa: MsaStage
    var xbl: XblStage
    var xsts: XstsStage
    var minecraft: MinecraftStage

    /** The zero value the program starts with. */
    constructor ()
      ensures State() == Empty
    {
      msa := Empty.msa;
      xbl := Empty.xbl;
      xsts := Empty.xsts;
      minecraft := Empty.minecraft;
    }

    function State(): Snapshot
      reads this
    {
      Snapshot(msa, xbl, xsts, minecraft)
    }

    /** `Store = store`. */
    method Assign(s: Snapshot)
      modifies this
      ensures State() == s
    {
      msa, xbl, xsts, minecraft := s.msa, s.xbl, s.xsts, s.minecraft;
    }

    /** `Store.MSA.write(resp)`. */
    method WriteMsaResponse(resp: MsaResponse, now: int)
      modifies this
      ensures State() == old(State()).(msa := WriteMsa(resp, now))
    {
      msa := WriteMsa(resp, now);
    }

    /** `Store.MSA.refresh(clientID)`. */
    method RefreshMsa(ep: Endpoints, clientID: string, now: int) returns (err: Option<string>)
      modifies this
      ensures (err, State()) == RefreshedMsa(old(State()), ep, clientID, now)
    {
      var resp := ep.msa(MsaRefreshForm(clientID, msa.refreshToken));
      if resp.Err? {
        return Some(resp.error);
      }
      msa := WriteMsa(resp.value, now);
      return None;
    }

    /** `Store.XBL.refresh()`, with the MSA access token. */
    method RefreshXbl(ep: Endpoints) returns (err: Option<string>)
      modifies this
      ensures (err, State()) == RefreshedXbl(old(State()), ep)
    {
      var resp := ep.xbl(msa.accessToken);
      if resp.Err? {
        return Some(resp.error);
      }
      if |resp.value.xui| == 0 {
        return Some(XuiPanic);
      }
      xbl := XblStage(resp.value.xui[0], resp.value.token, resp.value.notAfter);
      return None;
    }

    /** `Store.XSTS.refresh()`, with the Xbox Live token. */
    method RefreshXsts(ep: Endpoints) returns (err: Option<string>)
      modifies this
      ensures (err, State()) == RefreshedXsts(old(State()), ep)
    {
      var resp := ep.xsts(xbl.token);
      if resp.Err? {
        return Some(resp.error);
      }
      xsts := WriteXsts(resp.value);
      return None;
    }

    /** `Store.Minecraft.refresh()`, with the XSTS token and the userhash. */
    method RefreshMinecraft(ep: Endpoints, now: int) returns (err: Option<string>)
      modifies this
      ensures (err, State()) == RefreshedMinecraft(old(State()), ep, now)
    {
      var resp := ep.minecraft(xsts.token, xbl.userhash);
      if resp.Err? {
        return Some(resp.error);
      }
      minecraft := WriteMinecraft(resp.value.0, resp.value.1, now);
      return None;
    }

    /** `WriteToCache`: the store's JSON written with mode 0644 when the
        file is created. */
    method WriteToCache(disk: Disk, path: string, encode: Snapshot -> Bytes)
      modifies disk
      ensures disk.State() == old(disk.State()).WritePerm(path, encode(State()), 0x1a4)
    {
      disk.WriteFilePerm(path, encode(State()), 0x1a4);
    }

    /** `Clear`: the method rebinds its own receiver to a fresh store before
        writing, so the file gets an empty store while this store keeps every
        token. */
    method Clear(disk: Disk, path: string, encode: Snapshot -> Bytes)
      modifies disk
      ensures disk.State() == old(disk.State()).WritePerm(path, encode(Empty), 0x1a4)
      ensures State() == old(State())
    {
      var cleared := new AuthStore();
      cleared.WriteToCache(disk, path, encode);
    }
  }

  /** What `ReadFromCache` puts in the global store: the decoded file, or
      an empty store when it does not decode. */
  function Loaded(cache: Bytes, decode: Bytes -> Result<Snapshot>): (s: Snapshot)
    ensures decode(cache).Err? ==> s == Empty
    ensures decode(cache).Ok? ==> s == decode(cache).value
  {
    if decode(cache).Ok? then decode(cache).value else Empty
  }

  /** `ReadFromCache`: a missing file is created empty and read as empty
      content; the store is replaced in either case. */
  method ReadFromCache(store: AuthStore, disk: Disk, path: string, decode: Bytes -> Result<Snapshot>)
    modifies store, disk
    ensures path in old(disk.files) ==> disk.State() == old(disk.State()) && store.State() == Loaded(old(disk.files[path]), decode)
    ensures path !in old(disk.files) ==> disk.State() == old(disk.State()).Write(path, []) && store.State() == Loaded([], decode)
  {
    var cache := disk.Read(path);
    var data: Bytes := [];
    if cache.Err? {
      disk.WriteFile(path, []);
    } else {
      data := cache.value;
    }
    store.Assign(Loaded(data, decode));
  }

  /** Caching is a round trip when the decoder reads back what the encoder
      wrote: the store read from the cache is the store written to it. */
  lemma CacheRoundTrip(fs: Fs, path: string, s: Snapshot, encode: Snapshot -> Bytes, decode: Bytes -> Result<Snapshot>)
    requires decode(encode(s)) == Ok(s)
    ensures var fs1 := fs.WritePerm(path, encode(s), 0x1a4);
      path in fs1.files && Loaded(fs1.files[path], decode) == s
  {
  }

  /** After `Clear`, the cache reads back as an empty store whenever the
      decoder reads back an encoded empty store. */
  lemma ClearedCacheIsEmpty(fs: Fs, path: string, encode: Snapshot -> Bytes, decode: Bytes -> Result<Snapshot>)
    requires decode(encode(Empty)) == Ok(Empty)
    ensures var fs1 := fs.WritePerm(path, encode(Empty), 0x1a4);
      Loaded(fs1.files[path], decode) == Empty && !MsaValid(Empty.msa, 0)
  {
    CacheRoundTrip(fs, path, Empty, encode, decode);
  }
}
