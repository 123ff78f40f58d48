/** The entities of src/types/index.ts. Timestamps, which the source keeps
    as ISO-8601 strings, are kept as milliseconds since the epoch. */
module Types {
  import opened Wrappers

  type Time = int

  datatype Role = Admin | Editor | Viewer

  datatype Platform = Facebook | Instagram | YouTube | TikTok

  datatype ContentType = Video | Image | Text

  datatype PostStatus = Draft | Scheduled | Posted | Failed

  const AllPlatforms: seq<Platform> := [Facebook, Instagram, YouTube, TikTok]

  /** The string literal of each platform. */
  function PlatformName(p: Platform): string {
    match p
    case Facebook => "facebook"
    case Instagram => "instagram"
    case YouTube => "youtube"
    case TikTok => "tiktok"
  }

  /** Reads a platform literal; the four names are the only ones accepted. */
  function ParsePlatform(s: string): (r: Option<Platform>)
    ensures r.Some? ==> PlatformName(r.value) == s
    ensures r.None? ==> s !in {"facebook", "instagram", "youtube", "tiktok"}
  {
    if s == "facebook" then Some(Facebook)
    else if s == "instagram" then Some(Instagram)
    else if s == "youtube" then Some(YouTube)
    else if s == "tiktok" then Some(TikTok)
    else None
  }

  /** Every platform's name reads back as that platform, and the fixed list
      names each platform exactly once. */
  lemma PlatformNamesRoundTrip(p: Platform)
    ensures ParsePlatform(PlatformName(p)) == Some(p)
    ensures p in AllPlatforms
    ensures forall i, j :: 0 <= i < j < |AllPlatforms| ==> AllPlatforms[i] != AllPlatforms[j]
  {
  }

  function RoleName(r: Role): string {
    match r
    case Admin => "admin"
    case Editor => "editor"
    case Viewer => "viewer"
  }

  function ContentTypeName(t: ContentType): string {
    match t
    case Video => "video"
    case Image => "image"
    case Text => "text"
  }

  function StatusName(s: PostStatus): string {
    match s
    case Draft => "draft"
    case Scheduled => "scheduled"
    case Posted => "posted"
    case Failed => "failed"
  }

  /** The four literal unions have pairwise distinct members. */
  lemma LiteralsDistinct(a: Role, b: Role, c: ContentType, d: ContentType, e: PostStatus, f: PostStatus)
    ensures RoleName(a) == RoleName(b) ==> a == b
    ensures ContentTypeName(c) == ContentTypeName(d) ==> c == d
    ensures StatusName(e) == StatusName(f) ==> e == f
  {
  }

  datatype User = User(
    id: string,
    email: string,
    firstname: Option<string>,
    lastname: Option<string>,
    role: Role,
    /** Declared as a string, but copied from a nullable column. */
    churchId: Option<string>,
    avatarUrl: Option<string>,
    createdAt: Time)

  datatype Content = Content(
    id: string,
    title: string,
    description: Option<string>,
    contentType: ContentType,
    mediaUrl: Option<string>,
    platforms: seq<Platform>,
    status: PostStatus,
    scheduledFor: Option<Time>,
    authorId: string,
    churchId: string,
    hashtags: seq<string>,
    createdAt: Time,
    updatedAt: Time)

  /** One entry of a connected account's `pages` list: a Facebook page or a
      YouTube channel item, of which the model keeps the fields the source reads. */
  datatype Page = Page(id: Option<string>, name: Option<string>, username: Option<string>)

  /** A row of the credential table (`social_accounts`). */
  datatype SocialAccount = SocialAccount(
    id: string,
    userId: string,
    platform: Platform,
    accessToken: string,
    refreshToken: Option<string>,
    pages: Option<seq<Page>>,
    connectedAt: Time,
    expiresAt: Option<Time>)
}
