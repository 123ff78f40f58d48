/** The `social-auth` edge function: it validates a connect request, exchanges
    the OAuth code with Facebook or Google and stores the resulting
    credential row.

    The identity service, the platform APIs and the clock are parameters: the
    token lookup is a function from bearer token to user id, and every
    platform reply is a value chosen by a function of what was sent. */
module SocialAuth {
  import opened Wrappers
  import opened Types
  import opened Text
  import opened Http
  import Credentials

  datatype Request = Request(
    verb: string,
    path: string,
    authorization: Option<string>,
    userIdHeader: Option<string>,
    /** The `code` field of the JSON body. */
    code: Option<string>)

  /** The four platform secrets read from the environment. */
  datatype Config = Config(
    facebookAppId: Option<string>,
    facebookAppSecret: Option<string>,
    youtubeClientId: Option<string>,
    youtubeClientSecret: Option<string>)

  /** The Graph API's token reply. */
  datatype FacebookToken = FacebookToken(ok: bool, accessToken: string, errorMessage: Option<string>)

  /** Google's token reply. */
  datatype GoogleToken = GoogleToken(
    ok: bool,
    accessToken: string,
    refreshToken: Option<string>,
    /** Lifetime in seconds; absent when the reply leaves it out. */
    expiresIn: Option<int>,
    errorDescription: Option<string>,
    error: Option<string>)

  /** A listing reply: Facebook's `data` of pages or YouTube's `items` of
      channels. */
  datatype Listing = Listing(ok: bool, items: Option<seq<Page>>, errorMessage: Option<string>)

  /** The platform APIs, each a function of what the handler sends it. */
  datatype Platforms = Platforms(
    facebookToken: string -> FacebookToken,
    facebookPages: string -> Listing,
    googleToken: string -> GoogleToken,
    youtubeChannels: string -> Listing)

  /** The outbound requests, in the order the handler makes them. */
  datatype Call =
    | FacebookTokenExchange(clientId: string, code: string)
    | FacebookPageListing(accessToken: string)
    | GoogleTokenExchange(clientId: string, code: string)
    | YouTubeChannelListing(accessToken: string)

  /** What the handler does once validation and the platform exchange are
      over: answer at once, or save a credential row and then answer. */
  datatype Outcome = Reply(response: Response) | Save(credential: Credentials.Credential)

  datatype Plan = Plan(outcome: Outcome, calls: seq<Call>)

  const BearerPrefix: string := "Bearer "

  /** The reply the `catch` block builds from a thrown error's message. */
  function Thrown(msg: string): (r: Response)
    ensures r.body == Some(ErrorJson(msg))
    ensures r.status == 401 <==> Contains(msg, "Missing")
    ensures r.status != 401 ==> r.status == 500
  {
    Response(if Contains(msg, "Missing") then 401 else 500, Some(ErrorJson(msg)))
  }

  function Fail(status: int, msg: string): Response {
    Response(status, Some(ErrorJson(msg)))
  }

  /** The bearer token of a well-formed header. */
  function TokenOf(header: string): string
    requires StartsWith(header, BearerPrefix)
  {
    header[|BearerPrefix|..]
  }

  /** Everything the header checks need: a bearer token the identity service
      knows, and a non-empty `x-user-id` naming that same user. */
  predicate Authorized(req: Request, lookup: string -> Option<string>) {
    && req.authorization.Some?
    && StartsWith(req.authorization.value, BearerPrefix)
    && lookup(TokenOf(req.authorization.value)).Some?
    && TruthyOpt(req.userIdHeader)
    && req.userIdHeader == lookup(TokenOf(req.authorization.value))
  }

  datatype Gate = Pass(userId: string, code: string) | Stop(response: Response)

  /** The ordered request checks: header, token, user id, user id match,
      code. */
  function Check(req: Request, lookup: string -> Option<string>): (g: Gate)
    ensures g.Pass? <==> Authorized(req, lookup) && TruthyOpt(req.code)
    ensures g.Pass? ==> g.userId == req.userIdHeader.value && g.code == req.code.value
    ensures g.Pass? ==> g.userId == lookup(TokenOf(req.authorization.value)).value
    ensures g.Stop? ==> g.response.status == (if Authorized(req, lookup) then 400 else 401)
  {
    if req.authorization.None? || !Truthy(req.authorization.value) || !StartsWith(req.authorization.value, BearerPrefix) then
      Stop(Fail(401, "Missing or invalid Authorization header"))
    else
      var header := req.authorization.value;
      var token := ReplaceFirst(header, BearerPrefix, "");
      ReplaceLeadingPrefix(header, BearerPrefix);
      var user := lookup(token);
      if user.None? then Stop(Fail(401, "Invalid authentication token"))
      else if !TruthyOpt(req.userIdHeader) then Stop(Fail(401, "User ID not provided"))
      else if req.userIdHeader.value != user.value then Stop(Fail(401, "User ID mismatch"))
      else if !TruthyOpt(req.code) then Stop(Fail(400, "Authorization code not provided"))
      else Pass(req.userIdHeader.value, req.code.value)
  }

  /** The platform name the row is saved under: the segment with its first
      "-auth" removed. */
  function StoredPlatform(segment: string): Option<Platform> {
    ParsePlatform(ReplaceFirst(segment, "-auth", ""))
  }

  lemma StoredPlatformOfSegments()
    ensures StoredPlatform("facebook-auth") == Some(Facebook)
    ensures StoredPlatform("youtube-auth") == Some(YouTube)
  {
    StoredFacebook();
    StoredYouTube();
  }

  lemma StoredFacebook()
    ensures ReplaceFirst("facebook-auth", "-auth", "") == "facebook"
  {
    assert "facebook-auth" == "facebook" + "-auth" + "";
    ReplaceFirstAfter("facebook", "-auth", "", "");
  }

  lemma StoredYouTube()
    ensures ReplaceFirst("youtube-auth", "-auth", "") == "youtube"
  {
    assert "youtube-auth" == "youtube" + "-auth" + "";
    ReplaceFirstAfter("youtube", "-auth", "", "");
  }

  /** The Facebook branch: code for token, token for the page list. */
  function FacebookExchange(cfg: Config, api: Platforms, userId: string, code: string, saveNow: Time): (p: Plan)
    ensures p.outcome.Save? <==> && TruthyOpt(cfg.facebookAppId) && TruthyOpt(cfg.facebookAppSecret)
                                 && api.facebookToken(code).ok
                                 && api.facebookPages(api.facebookToken(code).accessToken).ok
    ensures p.outcome.Save? ==> && p.outcome.credential.userId == userId
                                && p.outcome.credential.platform == Facebook
                                && p.outcome.credential.connectedAt == saveNow
  {
    if !TruthyOpt(cfg.facebookAppId) || !TruthyOpt(cfg.facebookAppSecret) then
      Plan(Reply(Thrown("Missing Facebook credentials")), [])
    else
      var exchange := FacebookTokenExchange(cfg.facebookAppId.value, code);
      var token := api.facebookToken(code);
      if !token.ok then
        Plan(Reply(Thrown(OrElse(token.errorMessage, "Failed to get Facebook access token"))), [exchange])
      else
        var pages := api.facebookPages(token.accessToken);
        var calls := [exchange, FacebookPageListing(token.accessToken)];
        if !pages.ok then
          Plan(Reply(Thrown(OrElse(pages.errorMessage, "Failed to get Facebook pages"))), calls)
        else
          StoredPlatformOfSegments();
          Plan(Save(Credentials.Credential(userId, StoredPlatform("facebook-auth").value, token.accessToken,
                                           None, pages.items, None, saveNow)), calls)
  }

  /** A channel listing that succeeded and lists at least one channel. */
  predicate ChannelsFound(l: Listing) {
    l.ok && l.items.Some? && |l.items.value| > 0
  }

  /** The YouTube branch: code for tokens, token for the channel list. The
      expiry is `Date.now() + expires_in * 1000`; a missing `expires_in`
      makes the date invalid and `toISOString` throws. */
  function YouTubeExchange(cfg: Config, api: Platforms, userId: string, code: string, tokenNow: Time, saveNow: Time): (p: Plan)
    ensures p.outcome.Save? <==> && TruthyOpt(cfg.youtubeClientId) && TruthyOpt(cfg.youtubeClientSecret)
                                 && api.googleToken(code).ok && api.googleToken(code).expiresIn.Some?
                                 && ChannelsFound(api.youtubeChannels(api.googleToken(code).accessToken))
    ensures p.outcome.Save? ==> && p.outcome.credential.userId == userId
                                && p.outcome.credential.platform == YouTube
                                && p.outcome.credential.connectedAt == saveNow
  {
    if !TruthyOpt(cfg.youtubeClientId) || !TruthyOpt(cfg.youtubeClientSecret) then
      Plan(Reply(Thrown("Missing YouTube credentials")), [])
    else
      var exchange := GoogleTokenExchange(cfg.youtubeClientId.value, code);
      var token := api.googleToken(code);
      if !token.ok then
        var msg := OrElse(token.errorDescription, OrElse(token.error, "Failed to get YouTube access token"));
        Plan(Reply(Thrown(msg)), [exchange])
      else if token.expiresIn.None? then
        Plan(Reply(Thrown("Invalid time value")), [exchange])
      else
        var expiresAt := tokenNow + token.expiresIn.value * 1000;
        var channels := api.youtubeChannels(token.accessToken);
        var calls := [exchange, YouTubeChannelListing(token.accessToken)];
        if !channels.ok then
          Plan(Reply(Thrown(OrElse(channels.errorMessage, "Failed to get YouTube channel info"))), calls)
        else if channels.items.None? || |channels.items.value| == 0 then
          Plan(Reply(Thrown("No YouTube channels found for this account")), calls)
        else
          StoredPlatformOfSegments();
          Plan(Save(Credentials.Credential(userId, StoredPlatform("youtube-auth").value, token.accessToken,
                                           token.refreshToken, channels.items, Some(expiresAt), saveNow)), calls)
  }

  /** The whole handler up to the save: preflight, checks, dispatch on the
      last path segment. */
  function Decide(req: Request, cfg: Config, lookup: string -> Option<string>, api: Platforms,
                  tokenNow: Time, saveNow: Time): (p: Plan)
    ensures req.verb == "OPTIONS" ==> p == Plan(Reply(Preflight), [])
    ensures req.verb != "OPTIONS" && !(Authorized(req, lookup) && TruthyOpt(req.code)) ==>
            p.calls == [] && p.outcome.Reply? && p.outcome.response == Check(req, lookup).response
    ensures p.outcome.Save? ==> LastSegment(req.path) == "facebook-auth" || LastSegment(req.path) == "youtube-auth"
  {
    if req.verb == "OPTIONS" then Plan(Reply(Preflight), [])
    else
      match Check(req, lookup)
      case Stop(resp) => Plan(Reply(resp), [])
      case Pass(userId, code) =>
        var segment := LastSegment(req.path);
        if segment == "facebook-auth" then FacebookExchange(cfg, api, userId, code, saveNow)
        else if segment == "youtube-auth" then YouTubeExchange(cfg, api, userId, code, tokenNow, saveNow)
        else Plan(Reply(Fail(400, "Unsupported platform: " + segment)), [])
  }

  /** The reply once the save has been attempted. */
  function AfterSave(saveFailure: Option<string>): (r: Response)
    ensures saveFailure.None? ==> r == Response(200, Some(Json(Some(true), None, None, None)))
    ensures saveFailure.Some? ==> r.body == Some(ErrorJson(saveFailure.value))
  {
    if saveFailure.None? then Response(200, Some(Json(Some(true), None, None, None)))
    else Thrown(saveFailure.value)
  }

  /** OPTIONS is answered with the bare preflight reply before any check and
      without any outbound call. */
  lemma PreflightSkipsChecks(req: Request, cfg: Config, lookup: string -> Option<string>, api: Platforms, t1: Time, t2: Time)
    requires req.verb == "OPTIONS"
    ensures Decide(req, cfg, lookup, api, t1, t2) == Plan(Reply(Preflight), [])
  {
  }

  /** A request failing any check is answered with that check's status
      (401 for the header checks, 400 for the code), before any platform is
      contacted and without a save. */
  lemma FailedCheckStopsEarly(req: Request, cfg: Config, lookup: string -> Option<string>, api: Platforms, t1: Time, t2: Time)
    requires req.verb != "OPTIONS"
    requires !(Authorized(req, lookup) && TruthyOpt(req.code))
    ensures var p := Decide(req, cfg, lookup, api, t1, t2);
            && p.calls == []
            && p.outcome.Reply?
            && p.outcome.response.status == (if Authorized(req, lookup) then 400 else 401)
  {
  }

  /** Only the segments facebook-auth and youtube-auth are served; any other
      gets 400 "Unsupported platform: <segment>", with no call and no save. */
  lemma UnsupportedSegment(req: Request, cfg: Config, lookup: string -> Option<string>, api: Platforms, t1: Time, t2: Time)
    requires req.verb != "OPTIONS" && Authorized(req, lookup) && TruthyOpt(req.code)
    requires LastSegment(req.path) !in {"facebook-auth", "youtube-auth"}
    ensures Decide(req, cfg, lookup, api, t1, t2)
            == Plan(Reply(Response(400, Some(ErrorJson("Unsupported platform: " + LastSegment(req.path))))), [])
  {
  }

  /** A row is saved only after a served segment's exchange succeeded; it
      belongs to the authenticated user, carries the platform named by the
      segment, and is stamped with the save time. */
  lemma SaveOnlyAfterExchange(req: Request, cfg: Config, lookup: string -> Option<string>, api: Platforms, t1: Time, t2: Time)
    requires Decide(req, cfg, lookup, api, t1, t2).outcome.Save?
    ensures req.verb != "OPTIONS" && Authorized(req, lookup) && TruthyOpt(req.code)
    ensures var c := Decide(req, cfg, lookup, api, t1, t2).outcome.credential;
            && LastSegment(req.path) in {"facebook-auth", "youtube-auth"}
            && Some(c.platform) == StoredPlatform(LastSegment(req.path))
            && c.userId == lookup(TokenOf(req.authorization.value)).value
            && c.connectedAt == t2
  {
    StoredPlatformOfSegments();
  }

  /** A successful Facebook connect stores the exchanged token and the page
      list, with no refresh token and no expiry. */
  lemma FacebookSavesPages(cfg: Config, api: Platforms, userId: string, code: string, t2: Time)
    requires TruthyOpt(cfg.facebookAppId) && TruthyOpt(cfg.facebookAppSecret)
    requires api.facebookToken(code).ok
    requires api.facebookPages(api.facebookToken(code).accessToken).ok
    ensures var token := api.facebookToken(code).accessToken;
            FacebookExchange(cfg, api, userId, code, t2)
            == Plan(Save(Credentials.Credential(userId, Facebook, token, None,
                                                api.facebookPages(token).items, None, t2)),
                    [FacebookTokenExchange(cfg.facebookAppId.value, code), FacebookPageListing(token)])
  {
    StoredPlatformOfSegments();
  }

  /** A successful YouTube connect stores the refresh token, the channel
      list and an expiry `expires_in` seconds after the exchange. */
  lemma YouTubeSavesChannels(cfg: Config, api: Platforms, userId: string, code: string, t1: Time, t2: Time)
    requires TruthyOpt(cfg.youtubeClientId) && TruthyOpt(cfg.youtubeClientSecret)
    requires api.googleToken(code).ok && api.googleToken(code).expiresIn.Some?
    requires var l := api.youtubeChannels(api.googleToken(code).accessToken);
             l.ok && l.items.Some? && |l.items.value| > 0
    ensures var g := api.googleToken(code);
            var p := YouTubeExchange(cfg, api, userId, code, t1, t2);
            && p.outcome.Save?
            && p.outcome.credential.platform == YouTube
            && p.outcome.credential.accessToken == g.accessToken
            && p.outcome.credential.refreshToken == g.refreshToken
            && p.outcome.credential.expiresAt == Some(t1 + g.expiresIn.value * 1000)
            && p.outcome.credential.pages == api.youtubeChannels(g.accessToken).items
  {
    StoredPlatformOfSegments();
  }

  /** An account without channels is refused and nothing is saved. */
  lemma NoChannelsNoSave(cfg: Config, api: Platforms, userId: string, code: string, t1: Time, t2: Time)
    requires TruthyOpt(cfg.youtubeClientId) && TruthyOpt(cfg.youtubeClientSecret)
    requires api.googleToken(code).ok && api.googleToken(code).expiresIn.Some?
    requires var l := api.youtubeChannels(api.googleToken(code).accessToken);
             l.ok && (l.items.None? || l.items.value == [])
    ensures YouTubeExchange(cfg, api, userId, code, t1, t2).outcome
            == Reply(Response(500, Some(ErrorJson("No YouTube channels found for this account"))))
  {
    NoChannelsMessage();
  }

  lemma NoChannelsMessage()
    ensures Thrown("No YouTube channels found for this account")
            == Response(500, Some(ErrorJson("No YouTube channels found for this account")))
  {
    AbsentFirstChar("No YouTube channels found for this account", "Missing");
  }

  /** Missing platform secrets are reported with 401 before any call. */
  lemma MissingSecretsAre401(cfg: Config, api: Platforms, userId: string, code: string, t1: Time, t2: Time)
    ensures !TruthyOpt(cfg.facebookAppId) || !TruthyOpt(cfg.facebookAppSecret) ==>
            FacebookExchange(cfg, api, userId, code, t2)
            == Plan(Reply(Response(401, Some(ErrorJson("Missing Facebook credentials")))), [])
    ensures !TruthyOpt(cfg.youtubeClientId) || !TruthyOpt(cfg.youtubeClientSecret) ==>
            YouTubeExchange(cfg, api, userId, code, t1, t2)
            == Plan(Reply(Response(401, Some(ErrorJson("Missing YouTube credentials")))), [])
  {
    MissingMessages();
  }

  /** Each failing Facebook step is answered with the thrown error: the
      platform's own message when it gives one, else the step's fallback;
      the calls stop at the failing step and nothing is saved. */
  lemma FacebookFailureReplies(cfg: Config, api: Platforms, userId: string, code: string, t2: Time)
    requires TruthyOpt(cfg.facebookAppId) && TruthyOpt(cfg.facebookAppSecret)
    ensures var token := api.facebookToken(code);
            var exchange := FacebookTokenExchange(cfg.facebookAppId.value, code);
            !token.ok ==>
              FacebookExchange(cfg, api, userId, code, t2)
              == Plan(Reply(Thrown(OrElse(token.errorMessage, "Failed to get Facebook access token"))), [exchange])
    ensures var token := api.facebookToken(code);
            var pages := api.facebookPages(token.accessToken);
            token.ok && !pages.ok ==>
              FacebookExchange(cfg, api, userId, code, t2)
              == Plan(Reply(Thrown(OrElse(pages.errorMessage, "Failed to get Facebook pages"))),
                      [FacebookTokenExchange(cfg.facebookAppId.value, code), FacebookPageListing(token.accessToken)])
  {
  }

  /** Each failing YouTube step is answered with the thrown error: Google's
      `error_description`, else its `error`, else the fallback for the
      token; a missing lifetime is the invalid date; the channel listing's
      message or fallback, or the no-channel error, after both calls. */
  lemma YouTubeFailureReplies(cfg: Config, api: Platforms, userId: string, code: string, t1: Time, t2: Time)
    requires TruthyOpt(cfg.youtubeClientId) && TruthyOpt(cfg.youtubeClientSecret)
    ensures var token := api.googleToken(code);
            var exchange := GoogleTokenExchange(cfg.youtubeClientId.value, code);
            !token.ok ==>
              YouTubeExchange(cfg, api, userId, code, t1, t2)
              == Plan(Reply(Thrown(OrElse(token.errorDescription, OrElse(token.error, "Failed to get YouTube access token")))),
                      [exchange])
    ensures var token := api.googleToken(code);
            token.ok && token.expiresIn.None? ==>
              YouTubeExchange(cfg, api, userId, code, t1, t2)
              == Plan(Reply(Thrown("Invalid time value")), [GoogleTokenExchange(cfg.youtubeClientId.value, code)])
    ensures var token := api.googleToken(code);
            var channels := api.youtubeChannels(token.accessToken);
            var calls := [GoogleTokenExchange(cfg.youtubeClientId.value, code), YouTubeChannelListing(token.accessToken)];
            && (token.ok && token.expiresIn.Some? && !channels.ok ==>
                  YouTubeExchange(cfg, api, userId, code, t1, t2)
                  == Plan(Reply(Thrown(OrElse(channels.errorMessage, "Failed to get YouTube channel info"))), calls))
            && (token.ok && token.expiresIn.Some? && channels.ok && !ChannelsFound(channels) ==>
                  YouTubeExchange(cfg, api, userId, code, t1, t2)
                  == Plan(Reply(Thrown("No YouTube channels found for this account")), calls))
  {
  }

  lemma MissingMessages()
    ensures Thrown("Missing Facebook credentials") == Response(401, Some(ErrorJson("Missing Facebook credentials")))
    ensures Thrown("Missing YouTube credentials") == Response(401, Some(ErrorJson("Missing YouTube credentials")))
  {
    assert OccursAt("Missing Facebook credentials", "Missing", 0);
    assert OccursAt("Missing YouTube credentials", "Missing", 0);
  }

  /** One request: decide, then save through the table when the plan says
      so. The table changes only on a successful save. */
  method Serve(table: Credentials.CredentialTable, req: Request, cfg: Config, lookup: string -> Option<string>,
               api: Platforms, tokenNow: Time, saveNow: Time, freshId: string, saveFailure: Option<string>)
    returns (resp: Response)
    requires table.Valid() && Credentials.IdUnused(table.rows, freshId)
    modifies table
    ensures table.Valid()
    ensures var p := Decide(req, cfg, lookup, api, tokenNow, saveNow);
            match p.outcome
            case Reply(r) => resp == r && table.rows == old(table.rows)
            case Save(c) =>
              && resp == AfterSave(saveFailure)
              && table.rows == if saveFailure.None? then Credentials.UpsertRows(old(table.rows), c, freshId)
                               else old(table.rows)
  {
    var p := Decide(req, cfg, lookup, api, tokenNow, saveNow);
    match p.outcome
    case Reply(r) =>
      resp := r;
    case Save(c) =>
      var err := table.Upsert(c, freshId, saveFailure);
      resp := AfterSave(err);
  }
}
