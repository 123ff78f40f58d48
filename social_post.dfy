/** The `social-post` edge function: it authenticates the caller, loads the
    caller's account row and publishes one message on that account's
    platform. The identity service, the credential table and the platform
    APIs are parameters. */
module SocialPost {
  import opened Wrappers
  import opened Types
  import opened Text
  import opened Http
  import Credentials
  import Seqs

  /** The JSON body the client sends; `scheduledFor` is sent but unused. */
  datatype PostBody = PostBody(message: Option<string>, mediaUrl: Option<string>, accountId: string)

  datatype Request = Request(verb: string, path: string, authorization: Option<string>, body: PostBody)

  /** One field of a form-encoded body. */
  datatype Param = Param(name: string, value: string)

  /** The snippet and status of a YouTube upload; an `undefined` title is
      dropped by `JSON.stringify`, hence the options. */
  datatype VideoMetadata = VideoMetadata(
    title: Option<string>,
    description: Option<string>,
    tags: seq<string>,
    categoryId: string,
    privacyStatus: string,
    madeForKids: bool)

  /** The request sent to the platform. */
  datatype Outbound =
    | GraphPost(endpoint: string, params: seq<Param>)
    | VideoInsert(bearerToken: string, metadata: VideoMetadata)

  /** The platform's reply: status, `error.message`, and the JSON result. */
  datatype ApiReply = ApiReply(ok: bool, errorMessage: Option<string>, result: string)

  datatype Served = Served(response: Response, calls: seq<Outbound>)

  const GraphBase: string := "https://graph.facebook.com/v19.0/"

  /** Every failure is reported with status 500 and the message as `error`. */
  function Failure(msg: string): Response {
    Response(500, Some(ErrorJson(msg)))
  }

  /** The account row `select('*').eq('id', accountId).eq('user_id', uid).single()`
      returns. */
  function AccountFor(rows: seq<SocialAccount>, accountId: string, userId: string): (r: Option<SocialAccount>)
    ensures r.Some? ==> r.value in rows && r.value.id == accountId && r.value.userId == userId
  {
    Credentials.Single(Seqs.Filter((a: SocialAccount) => a.id == accountId && a.userId == userId, rows))
  }

  /** In a table with unique ids the caller's own row is always found. */
  lemma OwnRowIsFound(rows: seq<SocialAccount>, a: SocialAccount)
    requires Credentials.WellKeyed(rows) && a in rows
    ensures AccountFor(rows, a.id, a.userId) == Some(a)
  {
    UniqueIdMatches(rows, a);
    var m := Seqs.Filter((b: SocialAccount) => b.id == a.id && b.userId == a.userId, rows);
    assert m[0] in m;
  }

  /** In a table with unique ids, the rows with a given id and owner are
      exactly that one row. */
  lemma UniqueIdMatches(rows: seq<SocialAccount>, a: SocialAccount)
    requires Credentials.WellKeyed(rows) && a in rows
    ensures |Seqs.Filter((b: SocialAccount) => b.id == a.id && b.userId == a.userId, rows)| == 1
  {
    var keep := (b: SocialAccount) => b.id == a.id && b.userId == a.userId;
    var m := Seqs.Filter(keep, rows);
    var i :| 0 <= i < |rows| && rows[i] == a;
    assert forall b :: b in rows && keep(b) ==> b == a by {
      forall b | b in rows && keep(b) ensures b == a {
        var j :| 0 <= j < |rows| && rows[j] == b;
      }
    }
    assert forall b :: b in m ==> b == a;
    assert multiset(rows)[a] == 1 by { MultiplicityOne(rows, i); }
    assert multiset(m)[a] == 1;
    SingletonByMultiset(m, a);
  }

  lemma MultiplicityOne(rows: seq<SocialAccount>, i: nat)
    requires Credentials.WellKeyed(rows) && i < |rows|
    ensures multiset(rows)[rows[i]] == 1
  {
    var a := rows[i];
    assert rows == rows[..i] + [a] + rows[i + 1..];
    assert forall j :: 0 <= j < |rows[..i]| ==> rows[..i][j].id != a.id;
    var after := rows[i + 1..];
    assert forall j :: 0 <= j < |after| ==> after[j].id != a.id;
  }

  lemma SingletonByMultiset(m: seq<SocialAccount>, a: SocialAccount)
    requires forall b :: b in m ==> b == a
    requires multiset(m)[a] == 1
    ensures |m| == 1
  {
    assert multiset(m) == multiset{a} by {
      forall b ensures multiset(m)[b] == multiset{a}[b] {
        if b != a { assert b !in m; }
      }
    }
    assert |multiset(m)| == 1;
  }

  /** `postToFacebook`: a photo post when a media URL is given, a feed post
      otherwise, on the page `pageId`. */
  function FacebookRequest(message: Option<string>, mediaUrl: Option<string>, accessToken: string, pageId: Option<string>): (o: Outbound)
  {
    var endpoint := GraphBase + Show(pageId) + (if TruthyOpt(mediaUrl) then "/photos" else "/feed");
    var params := [Param("message", Show(message))]
                  + (if TruthyOpt(mediaUrl) then [Param("url", mediaUrl.value)] else [])
                  + [Param("access_token", accessToken)];
    GraphPost(endpoint, params)
  }

  /** The upload metadata of `postToYouTube`: the message serves as title and
      description. */
  function YouTubeMetadata(message: Option<string>): VideoMetadata {
    VideoMetadata(message, message, [], "22", "public", false)
  }

  /** Sends one request and reads the reply, as both `postTo…` helpers do. */
  function Publish(send: Outbound -> ApiReply, o: Outbound, fallback: string): Served {
    var reply := send(o);
    if reply.ok then Served(Response(200, Some(SuccessJson(Some(reply.result)))), [o])
    else Served(Failure(OrElse(reply.errorMessage, fallback)), [o])
  }

  /** An authenticated caller: a well-formed bearer header the identity
      service resolves. */
  predicate Authenticated(req: Request, lookup: string -> Option<string>) {
    && req.authorization.Some?
    && StartsWith(req.authorization.value, "Bearer ")
    && lookup(req.authorization.value[7..]).Some?
  }

  /** The header check and token lookup; their errors are thrown, not
      answered with 401. */
  function Caller(req: Request, lookup: string -> Option<string>): (r: Result<string>)
    ensures r.Ok? <==> Authenticated(req, lookup)
    ensures r.Ok? ==> r.value == lookup(req.authorization.value[7..]).value
  {
    if req.authorization.None? || !Truthy(req.authorization.value)
       || !StartsWith(req.authorization.value, "Bearer ") then
      Err("Missing or invalid Authorization header")
    else
      ReplaceLeadingPrefix(req.authorization.value, "Bearer ");
      var user := lookup(ReplaceFirst(req.authorization.value, "Bearer ", ""));
      if user.None? then Err("Invalid authentication token") else Ok(user.value)
  }

  /** The access token a platform request carries. */
  function SentToken(o: Outbound): Option<string> {
    match o
    case GraphPost(_, params) =>
      if params != [] && params[|params| - 1].name == "access_token" then Some(params[|params| - 1].value) else None
    case VideoInsert(token, _) => Some(token)
  }

  /** The platform switch for a found account. Reading `pages[0].id` throws
      a `TypeError` when `pages` is null or empty. */
  function Dispatch(platform: string, a: SocialAccount, body: PostBody, send: Outbound -> ApiReply): (s: Served)
    ensures s.response.status in {200, 500} && s.response.body.Some? && s.response.body.value.message.None?
    ensures |s.calls| <= 1
    ensures s.response.status == 200 ==> |s.calls| == 1
    ensures s.calls != [] ==> SentToken(s.calls[0]) == Some(a.accessToken)
  {
    if platform == "facebook" then
      if a.pages.None? then Served(Failure("Cannot read properties of null (reading '0')"), [])
      else if a.pages.value == [] then Served(Failure("Cannot read properties of undefined (reading 'id')"), [])
      else
        Publish(send, FacebookRequest(body.message, body.mediaUrl, a.accessToken, a.pages.value[0].id),
                "Failed to post to Facebook")
    else if platform == "youtube" then
      if !TruthyOpt(body.mediaUrl) then Served(Failure("Video URL is required for YouTube posts"), [])
      else Publish(send, VideoInsert(a.accessToken, YouTubeMetadata(body.message)), "Failed to post to YouTube")
    else Served(Failure("Unsupported platform: " + platform), [])
  }

  /** The handler: preflight, caller, account row, platform switch. */
  function Handle(req: Request, lookup: string -> Option<string>, rows: seq<SocialAccount>,
                  send: Outbound -> ApiReply): (s: Served)
    ensures req.verb != "OPTIONS" ==> s.response.status in {200, 500} && s.response.body.Some?
    ensures s.response.body.Some? ==> s.response.body.value.message.None?
    ensures |s.calls| <= 1
  {
    if req.verb == "OPTIONS" then Served(Preflight, [])
    else
      match Caller(req, lookup)
      case Err(msg) => Served(Failure(msg), [])
      case Ok(userId) =>
        match AccountFor(rows, req.body.accountId, userId)
        case None => Served(Failure("Social account not found"), [])
        case Some(a) => Dispatch(LastSegment(req.path), a, req.body, send)
  }

  /** OPTIONS gets the bare preflight reply. */
  lemma PreflightOnly(req: Request, lookup: string -> Option<string>, rows: seq<SocialAccount>, send: Outbound -> ApiReply)
    requires req.verb == "OPTIONS"
    ensures Handle(req, lookup, rows, send) == Served(Preflight, [])
  {
  }

  /** Nothing is sent to a platform unless the caller is authenticated and
      the requested account is one of the caller's own rows; the request
      carries that row's access token. */
  lemma CallsOnlyForOwnAccount(req: Request, lookup: string -> Option<string>, rows: seq<SocialAccount>, send: Outbound -> ApiReply)
    requires Handle(req, lookup, rows, send).calls != []
    ensures Authenticated(req, lookup)
    ensures exists a :: && a in rows && a.id == req.body.accountId
                        && a.userId == lookup(req.authorization.value[7..]).value
                        && SentToken(Handle(req, lookup, rows, send).calls[0]) == Some(a.accessToken)
  {
    var user := Caller(req, lookup);
    var a := AccountFor(rows, req.body.accountId, user.value).value;
    assert a in rows && a.id == req.body.accountId && a.userId == user.value;
  }

  /** A missing or foreign account is reported before the platform is even
      looked at. */
  lemma UnknownAccount(req: Request, lookup: string -> Option<string>, rows: seq<SocialAccount>, send: Outbound -> ApiReply)
    requires req.verb != "OPTIONS" && Authenticated(req, lookup)
    requires !exists a :: a in rows && a.id == req.body.accountId && a.userId == lookup(req.authorization.value[7..]).value
    ensures Handle(req, lookup, rows, send) == Served(Failure("Social account not found"), [])
  {
  }

  /** A Facebook post for an account with pages makes exactly one request,
      to the FIRST page's `/photos` with `url` when a media URL is given,
      otherwise to its `/feed` without `url`; `message` and the account's
      `access_token` are always sent. */
  lemma FacebookEndpoint(a: SocialAccount, body: PostBody, send: Outbound -> ApiReply)
    requires a.pages.Some? && a.pages.value != []
    ensures var s := Dispatch("facebook", a, body, send);
            && |s.calls| == 1
            && var o := s.calls[0];
            && o.GraphPost?
            && o.endpoint == GraphBase + Show(a.pages.value[0].id)
                             + (if TruthyOpt(body.mediaUrl) then "/photos" else "/feed")
            && o.params[0] == Param("message", Show(body.message))
            && o.params[|o.params| - 1] == Param("access_token", a.accessToken)
            && (TruthyOpt(body.mediaUrl) <==> exists k :: 0 <= k < |o.params| && o.params[k].name == "url")
            && (TruthyOpt(body.mediaUrl) ==> Param("url", body.mediaUrl.value) in o.params)
  {
    FacebookRequestShape(body.message, body.mediaUrl, a.accessToken, a.pages.value[0].id);
  }

  lemma FacebookRequestShape(message: Option<string>, mediaUrl: Option<string>, token: string, pageId: Option<string>)
    ensures var o := FacebookRequest(message, mediaUrl, token, pageId);
            && o.GraphPost?
            && o.endpoint == GraphBase + Show(pageId) + (if TruthyOpt(mediaUrl) then "/photos" else "/feed")
            && o.params[0] == Param("message", Show(message))
            && o.params[|o.params| - 1] == Param("access_token", token)
            && (TruthyOpt(mediaUrl) <==> exists k :: 0 <= k < |o.params| && o.params[k].name == "url")
            && (TruthyOpt(mediaUrl) ==> Param("url", mediaUrl.value) in o.params)
  {
    var o := FacebookRequest(message, mediaUrl, token, pageId);
    if TruthyOpt(mediaUrl) {
      assert o.params[1].name == "url";
    }
  }

  /** A YouTube post without a video URL fails before any request. */
  lemma YouTubeNeedsVideo(req: Request, lookup: string -> Option<string>, rows: seq<SocialAccount>, send: Outbound -> ApiReply)
    requires req.verb != "OPTIONS" && Authenticated(req, lookup)
    requires AccountFor(rows, req.body.accountId, lookup(req.authorization.value[7..]).value).Some?
    requires LastSegment(req.path) == "youtube" && !TruthyOpt(req.body.mediaUrl)
    ensures Handle(req, lookup, rows, send) == Served(Failure("Video URL is required for YouTube posts"), [])
  {
  }

  /** The upload metadata is fixed apart from the message. */
  lemma YouTubeMetadataFixed(message: Option<string>)
    ensures var m := YouTubeMetadata(message);
            && m.title == message && m.description == message && m.tags == []
            && m.categoryId == "22" && m.privacyStatus == "public" && !m.madeForKids
  {
  }

  /** Any segment other than facebook or youtube is refused without a call. */
  lemma UnsupportedPlatform(req: Request, lookup: string -> Option<string>, rows: seq<SocialAccount>, send: Outbound -> ApiReply)
    requires req.verb != "OPTIONS" && Authenticated(req, lookup)
    requires AccountFor(rows, req.body.accountId, lookup(req.authorization.value[7..]).value).Some?
    requires LastSegment(req.path) !in {"facebook", "youtube"}
    ensures Handle(req, lookup, rows, send) == Served(Failure("Unsupported platform: " + LastSegment(req.path)), [])
  {
  }

  /** A refused platform request reports the platform's own message, or the
      fixed text when it gives none. */
  lemma PlatformRefusal(send: Outbound -> ApiReply, o: Outbound, fallback: string)
    requires !send(o).ok
    ensures Publish(send, o, fallback) == Served(Failure(OrElse(send(o).errorMessage, fallback)), [o])
  {
  }
}
