/** The connect/disconnect card of one platform
    (src/components/settings/SocialConnect.tsx): connecting stores a
    random state under `<platform>_oauth_state` and sends the browser to
    the platform's consent page; disconnecting deletes the user's row of
    the credential table. The random suffix, the origin, the build-time
    client ids and the auth user are parameters; `encodeURIComponent` is a
    parameter of the rendering. */
module SocialConnect {
  import opened Wrappers
  import opened Types
  import opened Text
  import Seqs
  import ClientStorage
  import Credentials

  /** `VITE_FACEBOOK_APP_ID` and `VITE_YOUTUBE_CLIENT_ID`. */
  datatype Env = Env(facebookAppId: Option<string>, youtubeClientId: Option<string>)

  /** One query parameter; `encoded` marks a value that goes through
      `encodeURIComponent`. */
  datatype Param = Param(name: string, value: string, encoded: bool)

  /** A consent-page URL as its base and its parameters, in order. */
  datatype AuthUrl = AuthUrl(base: string, params: seq<Param>)

  const FacebookDialog: string := "https://www.facebook.com/v19.0/dialog/oauth?"
  const GoogleDialog: string := "https://accounts.google.com/o/oauth2/v2/auth?"
  const FacebookScope: string := "pages_manage_posts,pages_read_engagement"
  const YouTubeScopes: seq<string> := [
    "https://www.googleapis.com/auth/youtube",
    "https://www.googleapis.com/auth/youtube.upload",
    "https://www.googleapis.com/auth/youtube.readonly",
    "https://www.googleapis.com/auth/youtube.force-ssl",
    "https://www.googleapis.com/auth/youtube.channel-memberships.creator",
    "https://www.googleapis.com/auth/youtubepartner",
    "https://www.googleapis.com/auth/youtubepartner-channel-audit"
  ]

  /** The storage key of a platform's pending state. */
  function StateKey(p: Platform): string {
    PlatformName(p) + "_oauth_state"
  }

  /** The state value: the platform name, `_`, and the random suffix. */
  function StateValue(p: Platform, suffix: string): (s: string)
    ensures StartsWith(s, PlatformName(p) + "_")
    ensures s[|PlatformName(p)| + 1..] == suffix
  {
    PlatformName(p) + "_" + suffix
  }

  /** Where the platform sends the user back to. */
  function RedirectUri(origin: string, p: Platform): string {
    origin + "/settings?platform=" + PlatformName(p)
  }

  /** The value of the first parameter with that name. */
  function Lookup(params: seq<Param>, name: string): (r: Option<string>)
    ensures r.Some? <==> exists k :: 0 <= k < |params| && params[k].name == name
  {
    var q := Seqs.Find((q: Param) => q.name == name, params);
    if q.Some? then Some(q.value.value) else None
  }

  function Names(params: seq<Param>): seq<string> {
    Seqs.Map((q: Param) => q.name, params)
  }

  function FacebookParams(appId: string, redirect: string, state: string): seq<Param> {
    [Param("client_id", appId, false),
     Param("redirect_uri", redirect, true),
     Param("scope", FacebookScope, true),
     Param("state", state, false)]
  }

  function YouTubeParams(clientId: string, redirect: string, state: string): seq<Param> {
    [Param("client_id", clientId, false),
     Param("redirect_uri", redirect, true),
     Param("scope", Join(YouTubeScopes, " "), true),
     Param("response_type", "code", false),
     Param("access_type", "offline", false),
     Param("include_granted_scopes", "true", false),
     Param("prompt", "consent", false),
     Param("state", state, false)]
  }

  /** The `switch (platform)` of `handleConnect`: the consent-page URL, or
      the error it throws. */
  function AuthorizationUrl(p: Platform, env: Env, origin: string, state: string): (r: Result<AuthUrl>)
    ensures p == Facebook ==> (r.Err? <==> !TruthyOpt(env.facebookAppId))
    ensures p == YouTube ==> (r.Err? <==> !TruthyOpt(env.youtubeClientId))
    ensures p == Instagram || p == TikTok ==> r == Err("Platform not supported yet")
    ensures p == Facebook && r.Err? ==> r.msg == "Facebook App ID not configured"
    ensures p == YouTube && r.Err? ==> r.msg == "YouTube Client ID not configured"
    ensures r.Ok? ==> && |r.value.params| >= 4
                      && r.value.params[0] == Param("client_id", if p == Facebook then env.facebookAppId.value
                                                                 else env.youtubeClientId.value, false)
                      && r.value.params[1] == Param("redirect_uri", RedirectUri(origin, p), true)
                      && r.value.params[|r.value.params| - 1] == Param("state", state, false)
  {
    match p
    case Facebook =>
      if !TruthyOpt(env.facebookAppId) then Err("Facebook App ID not configured")
      else Ok(AuthUrl(FacebookDialog, FacebookParams(env.facebookAppId.value, RedirectUri(origin, p), state)))
    case YouTube =>
      if !TruthyOpt(env.youtubeClientId) then Err("YouTube Client ID not configured")
      else Ok(AuthUrl(GoogleDialog, YouTubeParams(env.youtubeClientId.value, RedirectUri(origin, p), state)))
    case _ => Err("Platform not supported yet")
  }

  function RenderParam(q: Param, encode: string -> string): string {
    q.name + "=" + (if q.encoded then encode(q.value) else q.value)
  }

  /** The URL as the browser receives it: the base, then `name=value`
      pairs joined by `&`. */
  function Render(u: AuthUrl, encode: string -> string): string {
    u.base + Join(Seqs.Map((q: Param) => RenderParam(q, encode), u.params), "&")
  }

  /** The Facebook URL carries the app id, the encoded redirect to
      `/settings?platform=facebook`, the encoded page scopes and the state,
      in that order. */
  lemma FacebookUrl(env: Env, origin: string, state: string, encode: string -> string)
    requires TruthyOpt(env.facebookAppId)
    ensures var r := AuthorizationUrl(Facebook, env, origin, state);
            && r.Ok?
            && Names(r.value.params) == ["client_id", "redirect_uri", "scope", "state"]
            && Lookup(r.value.params, "scope") == Some(FacebookScope)
            && Render(r.value, encode)
               == FacebookDialog + "client_id=" + env.facebookAppId.value
                  + "&" + "redirect_uri=" + encode(origin + "/settings?platform=facebook")
                  + "&" + "scope=" + encode("pages_manage_posts,pages_read_engagement")
                  + "&" + "state=" + state
  {
    assert RedirectUri(origin, Facebook) == origin + "/settings?platform=facebook";
    var ps := FacebookParams(env.facebookAppId.value, RedirectUri(origin, Facebook), state);
    FacebookRendered(env.facebookAppId.value, RedirectUri(origin, Facebook), state, encode);
    LookupFirst(ps, 2);
  }

  lemma FacebookRendered(appId: string, redirect: string, state: string, encode: string -> string)
    ensures Names(FacebookParams(appId, redirect, state)) == ["client_id", "redirect_uri", "scope", "state"]
    ensures Render(AuthUrl(FacebookDialog, FacebookParams(appId, redirect, state)), encode)
            == FacebookDialog + "client_id=" + appId + "&" + "redirect_uri=" + encode(redirect)
               + "&" + "scope=" + encode(FacebookScope) + "&" + "state=" + state
  {
    var ps := FacebookParams(appId, redirect, state);
    var parts := Seqs.Map((q: Param) => RenderParam(q, encode), ps);
    assert parts[0] == "client_id=" + appId;
    assert parts[1] == "redirect_uri=" + encode(redirect);
    assert parts[2] == "scope=" + encode(FacebookScope);
    assert parts[3] == "state=" + state;
    assert parts == ["client_id=" + appId, "redirect_uri=" + encode(redirect),
                     "scope=" + encode(FacebookScope), "state=" + state];
    JoinFourPairs(FacebookDialog, "&", "client_id=", appId, "redirect_uri=", encode(redirect),
                  "scope=", encode(FacebookScope), "state=", state);
  }

  /** Four `name=value` pieces joined after a base, written out flat. */
  lemma JoinFourPairs(base: string, sep: string, a0: string, a1: string, b0: string, b1: string,
                      c0: string, c1: string, d0: string, d1: string)
    ensures base + Join([a0 + a1, b0 + b1, c0 + c1, d0 + d1], sep)
            == base + a0 + a1 + sep + b0 + b1 + sep + c0 + c1 + sep + d0 + d1
  {
    var parts := [a0 + a1, b0 + b1, c0 + c1, d0 + d1];
    assert Join(parts[2..], sep) == c0 + c1 + sep + (d0 + d1) by {
      assert parts[2..][1..] == [d0 + d1];
    }
    assert Join(parts[1..], sep) == b0 + b1 + sep + (c0 + c1 + sep + (d0 + d1)) by {
      assert parts[1..][1..] == parts[2..];
    }
  }

  /** The YouTube URL adds the offline-access parameters after the
      scope, in this order. */
  lemma YouTubeUrl(env: Env, origin: string, state: string)
    requires TruthyOpt(env.youtubeClientId)
    ensures var r := AuthorizationUrl(YouTube, env, origin, state);
            && r.Ok?
            && r.value.base == GoogleDialog
            && Names(r.value.params) == ["client_id", "redirect_uri", "scope", "response_type", "access_type",
                                         "include_granted_scopes", "prompt", "state"]
            && r.value.params[3].value == "code" && r.value.params[4].value == "offline"
            && r.value.params[5].value == "true" && r.value.params[6].value == "consent"
  {
  }

  /** Each YouTube parameter is found where it was put, and the scope asks
      for each of the seven scopes. */
  lemma YouTubeScopeRequested(clientId: string, redirect: string, state: string)
    ensures var ps := YouTubeParams(clientId, redirect, state);
            && Lookup(ps, "response_type") == Some("code")
            && Lookup(ps, "prompt") == Some("consent")
            && Lookup(ps, "scope").Some?
            && (forall k :: 0 <= k < |YouTubeScopes| ==> Contains(Lookup(ps, "scope").value, YouTubeScopes[k]))
  {
    YouTubeScopeFound(clientId, redirect, state);
    YouTubeResponseTypeFound(clientId, redirect, state);
    YouTubePromptFound(clientId, redirect, state);
    ScopeStringHasEveryScope();
  }

  lemma YouTubeScopeFound(clientId: string, redirect: string, state: string)
    ensures Lookup(YouTubeParams(clientId, redirect, state), "scope") == Some(Join(YouTubeScopes, " "))
  {
    LookupFirst(YouTubeParams(clientId, redirect, state), 2);
  }

  lemma YouTubeResponseTypeFound(clientId: string, redirect: string, state: string)
    ensures Lookup(YouTubeParams(clientId, redirect, state), "response_type") == Some("code")
  {
    LookupFirst(YouTubeParams(clientId, redirect, state), 3);
  }

  lemma YouTubePromptFound(clientId: string, redirect: string, state: string)
    ensures Lookup(YouTubeParams(clientId, redirect, state), "prompt") == Some("consent")
  {
    LookupFirst(YouTubeParams(clientId, redirect, state), 6);
  }

  lemma ScopeStringHasEveryScope()
    ensures forall k :: 0 <= k < |YouTubeScopes| ==> Contains(Join(YouTubeScopes, " "), YouTubeScopes[k])
  {
    forall k | 0 <= k < |YouTubeScopes|
      ensures Contains(Join(YouTubeScopes, " "), YouTubeScopes[k])
    {
      JoinHasPart(YouTubeScopes, " ", k);
    }
  }

  /** A parameter whose name does not occur earlier is the one found. */
  lemma LookupFirst(params: seq<Param>, k: nat)
    requires k < |params| && forall j :: 0 <= j < k ==> params[j].name != params[k].name
    ensures Lookup(params, params[k].name) == Some(params[k].value)
  {
    var name := params[k].name;
    var q := Seqs.Find((q: Param) => q.name == name, params);
    var i :| 0 <= i < |params| && params[i] == q.value && params[i].name == name
             && forall j :: 0 <= j < i ==> params[j].name != name;
    assert i == k;
  }

  /** The page or channel name shown for a connected account: '' without
      pages, else the first page's name, else its username, else ''. */
  function AccountName(info: Option<SocialAccount>): (r: string)
    ensures info.None? || info.value.pages.None? || info.value.pages.value == [] ==> r == ""
    ensures r != "" ==> var first := info.value.pages.value[0];
                        (TruthyOpt(first.name) && r == first.name.value)
                        || (!TruthyOpt(first.name) && TruthyOpt(first.username) && r == first.username.value)
    ensures (&& info.Some? && info.value.pages.Some? && info.value.pages.value != []
             && TruthyOpt(info.value.pages.value[0].name)) ==> r == info.value.pages.value[0].name.value
    ensures (&& info.Some? && info.value.pages.Some? && info.value.pages.value != []
             && !TruthyOpt(info.value.pages.value[0].name) && TruthyOpt(info.value.pages.value[0].username))
            ==> r == info.value.pages.value[0].username.value
    ensures (&& info.Some? && info.value.pages.Some? && info.value.pages.value != []
             && !TruthyOpt(info.value.pages.value[0].name) && !TruthyOpt(info.value.pages.value[0].username))
            ==> r == ""
  {
    if info.None? || info.value.pages.None? || |info.value.pages.value| == 0 then ""
    else
      var first := info.value.pages.value[0];
      OrElse(first.name, OrElse(first.username, ""))
  }

  /** One card's state. */
  class Card {
    const platform: Platform
    var loading: bool
    var error: Option<string>
    var accountInfo: Option<SocialAccount>

    constructor (p: Platform)
      ensures platform == p && !loading && error.None? && accountInfo.None?
    {
      platform := p;
      loading, error, accountInfo := false, None, None;
    }

    /** `handleConnect`: without an auth user it fails before storing
        anything; otherwise the state is stored first, then the URL is
        built, so a configuration error leaves the state behind. */
    method HandleConnect(storage: ClientStorage.LocalStorage, authUserId: Option<string>, env: Env,
                         origin: string, suffix: string) returns (redirect: Option<AuthUrl>)
      modifies this, storage
      ensures !loading && accountInfo == old(accountInfo)
      ensures authUserId.None? ==> && storage.items == old(storage.items) && redirect.None?
                                   && error == Some("Not authenticated")
      ensures authUserId.Some? ==> storage.items == old(storage.items)[StateKey(platform) := StateValue(platform, suffix)]
      ensures authUserId.Some? ==> var r := AuthorizationUrl(platform, env, origin, StateValue(platform, suffix));
                                   && (r.Ok? ==> redirect == Some(r.value) && error.None?)
                                   && (r.Err? ==> redirect.None? && error == Some(r.msg))
    {
      loading, error := true, None;
      if authUserId.None? {
        error := Some(OrElse(Some("Not authenticated"), "Failed to connect account"));
        redirect := None;
      } else {
        var state := StateValue(platform, suffix);
        storage.SetItem(StateKey(platform), state);
        var r := AuthorizationUrl(platform, env, origin, state);
        if r.Ok? {
          redirect := Some(r.value);
        } else {
          assert r.msg != "";
          error := Some(OrElse(Some(r.msg), "Failed to connect account"));
          redirect := None;
        }
      }
      loading := false;
    }

    /** `handleDisconnect`: deletes the (platform, user) row; the return
        value says whether `onDisconnect` was called, which happens only
        when the delete succeeded. */
    method HandleDisconnect(table: Credentials.CredentialTable, authUserId: Option<string>, failure: Option<string>)
      returns (disconnected: bool)
      requires table.Valid()
      modifies this, table
      ensures table.Valid() && !loading
      ensures disconnected <==> authUserId.Some? && failure.None?
      ensures authUserId.None? ==> table.rows == old(table.rows) && error == Some("Not authenticated")
      ensures authUserId.Some? && failure.None? ==>
                table.rows == Credentials.DeleteRows(old(table.rows), authUserId.value, platform)
                && error.None? && accountInfo.None?
      ensures authUserId.Some? && failure.Some? ==>
                table.rows == old(table.rows) && error == Some(OrElse(failure, "Failed to disconnect account"))
      ensures !disconnected ==> accountInfo == old(accountInfo)
    {
      loading, error := true, None;
      if authUserId.None? {
        error := Some(OrElse(Some("Not authenticated"), "Failed to disconnect account"));
        disconnected := false;
      } else {
        var err := table.Delete(authUserId.value, platform, failure);
        if err.Some? {
          error := Some(OrElse(err, "Failed to disconnect account"));
          disconnected := false;
        } else {
          accountInfo := None;
          disconnected := true;
        }
      }
      loading := false;
    }
  }
}
