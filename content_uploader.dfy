/** The upload form (src/pages/content/ContentUploader.tsx): its list
    editing, the ordered checks of its submit handler and the record and
    post it produces. */
module ContentUploader {
  import opened Wrappers
  import opened Types
  import opened Text
  import Seqs
  import ContentStore
  import SocialMediaService

  /** The URL that stands in for an uploaded file. */
  const PlaceholderUrl: string := "https://example.com/media/placeholder.jpg"

  ghost predicate NoDuplicates<T(!new)>(s: seq<T>) {
    forall x :: multiset(s)[x] <= 1
  }

  /** `togglePlatform`: remove the platform if selected, append it if not. */
  function Toggle(platforms: seq<Platform>, p: Platform): (r: seq<Platform>)
    ensures p in r <==> p !in platforms
    ensures forall q :: q != p ==> (q in r <==> q in platforms)
    ensures NoDuplicates(platforms) ==> NoDuplicates(r)
  {
    if p in platforms then Seqs.Filter((q: Platform) => q != p, platforms)
    else
      assert forall q :: multiset(platforms + [p])[q] == multiset(platforms)[q] + multiset([p])[q];
      platforms + [p]
  }

  /** Toggling twice gives back the same selection; when the platform was
      not selected it gives back the very same list. */
  lemma ToggleTwice(platforms: seq<Platform>, p: Platform)
    ensures forall q :: q in Toggle(Toggle(platforms, p), p) <==> q in platforms
    ensures p !in platforms ==> Toggle(Toggle(platforms, p), p) == platforms
  {
    if p !in platforms {
      assert forall k :: 0 <= k < |platforms| ==> platforms[k] != p;
      Seqs.FilterAll((q: Platform) => q != p, platforms);
      AppendThenFilter(platforms, p);
    }
  }

  lemma {:induction false} AppendThenFilter(s: seq<Platform>, p: Platform)
    requires Seqs.Filter((q: Platform) => q != p, s) == s
    ensures Seqs.Filter((q: Platform) => q != p, s + [p]) == s
  {
    if s != [] {
      assert (s + [p])[1..] == s[1..] + [p];
      assert s[0] != p by { assert s[0] in Seqs.Filter((q: Platform) => q != p, s); }
      assert Seqs.Filter((q: Platform) => q != p, s[1..]) == s[1..] by {
        assert Seqs.Filter((q: Platform) => q != p, s) == [s[0]] + Seqs.Filter((q: Platform) => q != p, s[1..]);
      }
      AppendThenFilter(s[1..], p);
    }
  }

  /** The hashtag list's invariant: every tag trimmed, non-empty and listed
      once. */
  ghost predicate TagsWellFormed(tags: seq<string>) {
    && NoDuplicates(tags)
    && forall k :: 0 <= k < |tags| ==> Tidy(tags[k])
  }

  /** A tag as `addHashtag` stores it: trimmed and non-empty. */
  predicate Tidy(t: string) {
    t != "" && Trim(t) == t
  }

  datatype TagInput = TagInput(tags: seq<string>, current: string)

  /** `addHashtag`: the trimmed input is appended and the input cleared, only
      when the trimmed input is non-empty and not yet listed. */
  function AddTag(s: TagInput): (r: TagInput)
    ensures var t := Trim(s.current);
            if t != "" && t !in s.tags then r == TagInput(s.tags + [t], "") else r == s
    ensures TagsWellFormed(s.tags) ==> TagsWellFormed(r.tags)
  {
    var t := Trim(s.current);
    if Truthy(t) && t !in s.tags then
      TrimIdempotent(s.current);
      AppendKeepsWellFormed(s.tags, t);
      TagInput(s.tags + [t], "")
    else s
  }

  lemma AppendKeepsWellFormed(tags: seq<string>, t: string)
    ensures TagsWellFormed(tags) && Tidy(t) && t !in tags ==> TagsWellFormed(tags + [t])
  {
    if TagsWellFormed(tags) && Tidy(t) && t !in tags {
      assert multiset(tags + [t]) == multiset(tags) + multiset{t};
      Seqs.AppendKeepsAll(Tidy, tags, t);
    }
  }

  /** `removeHashtag`: every occurrence of the tag goes, the rest stay in
      order. */
  function RemoveTag(tags: seq<string>, tag: string): (r: seq<string>)
    ensures tag !in r
    ensures forall t :: t != tag ==> multiset(r)[t] == multiset(tags)[t]
    ensures TagsWellFormed(tags) ==> TagsWellFormed(r)
  {
    RemoveKeepsWellFormed(tags, tag);
    Seqs.Filter((t: string) => t != tag, tags)
  }

  lemma RemoveKeepsWellFormed(tags: seq<string>, tag: string)
    ensures TagsWellFormed(tags) ==> TagsWellFormed(Seqs.Filter((t: string) => t != tag, tags))
  {
    if TagsWellFormed(tags) {
      Seqs.FilterKeepsAll((t: string) => t != tag, Tidy, tags);
    }
  }

  /** Adding a fresh tag and removing it again leaves the list as it was. */
  lemma AddThenRemove(tags: seq<string>, current: string)
    requires Trim(current) != "" && Trim(current) !in tags
    ensures RemoveTag(AddTag(TagInput(tags, current)).tags, Trim(current)) == tags
  {
    var t := Trim(current);
    assert forall k :: 0 <= k < |tags| ==> tags[k] != t;
    Seqs.FilterAll((x: string) => x != t, tags);
    FilterDropsLast(tags, t);
  }

  lemma {:induction false} FilterDropsLast(s: seq<string>, t: string)
    requires Seqs.Filter((x: string) => x != t, s) == s
    ensures Seqs.Filter((x: string) => x != t, s + [t]) == s
  {
    if s != [] {
      assert (s + [t])[1..] == s[1..] + [t];
      assert s[0] != t by { assert s[0] in Seqs.Filter((x: string) => x != t, s); }
      assert Seqs.Filter((x: string) => x != t, s[1..]) == s[1..] by {
        assert Seqs.Filter((x: string) => x != t, s) == [s[0]] + Seqs.Filter((x: string) => x != t, s[1..]);
      }
      FilterDropsLast(s[1..], t);
    }
  }

  /** `handleFileChange`: an image or video MIME type sets the content type;
      any other type leaves it as it was. */
  function TypeForFile(mimeType: string, current: ContentType): (r: ContentType)
    ensures StartsWith(mimeType, "image/") ==> r == Image
    ensures !StartsWith(mimeType, "image/") && StartsWith(mimeType, "video/") ==> r == Video
    ensures !StartsWith(mimeType, "image/") && !StartsWith(mimeType, "video/") ==> r == current
  {
    if StartsWith(mimeType, "image/") then Image
    else if StartsWith(mimeType, "video/") then Video
    else current
  }

  /** The string-valued properties of the user object the auth store
      builds; any other property reads as `undefined`. */
  function UserProperty(u: User, key: string): Option<string> {
    if key == "id" then Some(u.id)
    else if key == "email" then Some(u.email)
    else if key == "firstname" then u.firstname
    else if key == "lastname" then u.lastname
    else if key == "churchId" then u.churchId
    else if key == "avatarUrl" then u.avatarUrl
    else None
  }

  /** The form state the submit handler reads. */
  datatype Form = Form(
    title: string,
    description: string,
    contentType: ContentType,
    hasFile: bool,
    platforms: seq<Platform>,
    hashtags: seq<string>,
    scheduledFor: Option<Time>,
    isScheduling: bool)

  datatype Decision =
    | NotLoggedIn
    | NeedsChurchId
    | Invalid(msg: string)
    | Proceed(record: ContentStore.NewContent, publish: Option<SocialMediaService.PostContent>)

  function MediaUrl(f: Form): Option<string> {
    if f.hasFile then Some(PlaceholderUrl) else None
  }

  /** The submit handler's checks and what it creates and posts, reading
      the church id from the user property `churchKey`. */
  function Decide(user: Option<User>, f: Form, churchKey: string): (d: Decision)
    ensures d == NotLoggedIn <==> user.None?
    ensures d == NeedsChurchId <==> user.Some? && !TruthyOpt(UserProperty(user.value, churchKey))
    ensures d.Proceed? <==> && user.Some? && TruthyOpt(UserProperty(user.value, churchKey))
                            && f.title != "" && f.platforms != [] && !(f.isScheduling && f.scheduledFor.None?)
    ensures d.Proceed? ==> && d.record.status == (if f.isScheduling then Scheduled else Draft)
                           && d.record.authorId == user.value.id
                           && Some(d.record.churchId) == UserProperty(user.value, churchKey)
                           && d.record.platforms == f.platforms && d.record.hashtags == f.hashtags
                           && d.record.title == f.title && d.record.description == Some(f.description)
                           && d.record.contentType == f.contentType && d.record.mediaUrl == MediaUrl(f)
                           && d.record.scheduledFor == f.scheduledFor
    ensures d.Proceed? ==> (d.publish.Some? <==> !f.isScheduling)
  {
    if user.None? then NotLoggedIn
    else
      var u := user.value;
      var church := UserProperty(u, churchKey);
      if !TruthyOpt(church) then NeedsChurchId
      else if !Truthy(f.title) then Invalid("Please enter a title for your content")
      else if |f.platforms| == 0 then Invalid("Please select at least one platform")
      else if f.isScheduling && f.scheduledFor.None? then
        Invalid("Please select a date and time to schedule your content")
      else
        var record := ContentStore.NewContent(f.title, Some(f.description), f.contentType, MediaUrl(f), f.platforms,
                                              if f.isScheduling then Scheduled else Draft, f.scheduledFor,
                                              u.id, church.value, f.hashtags);
        var publish := if f.isScheduling then None
                       else Some(SocialMediaService.PostContent(
                                   if Truthy(f.description) then f.description else f.title,
                                   MediaUrl(f), f.scheduledFor, f.platforms));
        Proceed(record, publish)
  }

  /** The checks run in order: a missing title is reported even when no
      platform is selected and no date chosen, and so on down the list. */
  lemma CheckOrder(u: User, f: Form, churchKey: string)
    requires TruthyOpt(UserProperty(u, churchKey))
    ensures f.title == "" ==> Decide(Some(u), f, churchKey) == Invalid("Please enter a title for your content")
    ensures f.title != "" && f.platforms == [] ==>
              Decide(Some(u), f, churchKey) == Invalid("Please select at least one platform")
    ensures f.title != "" && f.platforms != [] && f.isScheduling && f.scheduledFor.None? ==>
              Decide(Some(u), f, churchKey) == Invalid("Please select a date and time to schedule your content")
  {
  }

  /** An immediate post uses the description, or the title when the
      description is empty, and goes to the selected platforms. */
  lemma PublishMessage(u: User, f: Form, churchKey: string)
    requires Decide(Some(u), f, churchKey).Proceed? && !f.isScheduling
    ensures var p := Decide(Some(u), f, churchKey).publish.value;
            && p.message == (if f.description != "" then f.description else f.title)
            && p.platforms == f.platforms
            && p.mediaUrl == MediaUrl(f)
  {
  }

  /** As written, the handler reads `user.church_id`, a property the auth
      store never sets (it sets `churchId`): every signed-in user, whatever
      church id the profile holds, is sent to the church-id dialog and
      nothing is ever created. */
  lemma AsWrittenAlwaysAsksForChurchId(u: User, f: Form)
    ensures Decide(Some(u), f, "church_id") == NeedsChurchId
  {
  }

  /** With the property the auth store sets, a user whose profile has a
      church id gets past the dialog. */
  lemma CorrectedGatePassesWithChurchId(u: User, f: Form)
    requires TruthyOpt(u.churchId)
    ensures Decide(Some(u), f, "churchId") != NeedsChurchId
    ensures f.title != "" && f.platforms != [] && !f.isScheduling ==>
              && Decide(Some(u), f, "churchId").Proceed?
              && Decide(Some(u), f, "churchId").record.churchId == u.churchId.value
  {
  }

  /** The form component. */
  class Uploader {
    var title: string
    var description: string
    var contentType: ContentType
    var hasFile: bool
    var platforms: seq<Platform>
    var hashtags: seq<string>
    var currentHashtag: string
    var scheduledFor: Option<Time>
    var isScheduling: bool
    var isPosting: bool
    var showChurchIdModal: bool

    ghost predicate Valid()
      reads this
    {
      TagsWellFormed(hashtags) && NoDuplicates(platforms)
    }

    constructor ()
      ensures Valid()
      ensures title == "" && description == "" && contentType == Image && !hasFile
      ensures platforms == [] && hashtags == [] && currentHashtag == "" && scheduledFor == None
      ensures !isScheduling && !isPosting && !showChurchIdModal
    {
      title, description, contentType, hasFile := "", "", Image, false;
      platforms, hashtags, currentHashtag, scheduledFor := [], [], "", None;
      isScheduling, isPosting, showChurchIdModal := false, false, false;
    }

    function FormState(): Form
      reads this
    {
      Form(title, description, contentType, hasFile, platforms, hashtags, scheduledFor, isScheduling)
    }

    method TogglePlatform(p: Platform)
      requires Valid()
      modifies this
      ensures Valid()
      ensures platforms == Toggle(old(platforms), p)
      ensures FormState() == old(FormState()).(platforms := Toggle(old(platforms), p))
      ensures currentHashtag == old(currentHashtag)
      ensures isPosting == old(isPosting) && showChurchIdModal == old(showChurchIdModal)
    {
      platforms := Toggle(platforms, p);
    }

    method AddHashtag()
      requires Valid()
      modifies this
      ensures Valid()
      ensures TagInput(hashtags, currentHashtag) == AddTag(TagInput(old(hashtags), old(currentHashtag)))
      ensures FormState().(hashtags := old(hashtags)) == old(FormState())
      ensures isPosting == old(isPosting) && showChurchIdModal == old(showChurchIdModal)
    {
      var next := AddTag(TagInput(hashtags, currentHashtag));
      assert TagsWellFormed(next.tags);
      hashtags, currentHashtag := next.tags, next.current;
    }

    method RemoveHashtag(tag: string)
      requires Valid()
      modifies this
      ensures Valid()
      ensures hashtags == RemoveTag(old(hashtags), tag)
      ensures FormState().(hashtags := old(hashtags)) == old(FormState())
      ensures currentHashtag == old(currentHashtag)
      ensures isPosting == old(isPosting) && showChurchIdModal == old(showChurchIdModal)
    {
      hashtags := RemoveTag(hashtags, tag);
    }

    /** A chosen file is kept and may set the content type; no file changes
        nothing. */
    method HandleFileChange(mimeType: Option<string>)
      modifies this
      ensures mimeType.Some? ==> hasFile && contentType == TypeForFile(mimeType.value, old(contentType))
      ensures mimeType.None? ==> hasFile == old(hasFile) && contentType == old(contentType)
      ensures FormState().(contentType := old(contentType), hasFile := old(hasFile)) == old(FormState())
      ensures currentHashtag == old(currentHashtag)
      ensures isPosting == old(isPosting) && showChurchIdModal == old(showChurchIdModal)
    {
      if mimeType.Some? {
        hasFile := true;
        contentType := TypeForFile(mimeType.value, contentType);
      }
    }

    /** `handleSubmit`, with the church id read from the user property
        `churchKey`: "church_id" as the handler is written, "churchId" as
        the auth store builds the user. The store is given the outcomes of
        its insert and reload; a failure there, or of the post, still ends
        on the calendar page. */
    method Submit(user: Option<User>, churchKey: string, store: ContentStore.Store, now: Time,
                  insertFailure: Option<string>, table: Result<seq<Content>>)
      returns (d: Decision, navigateTo: Option<string>)
      modifies this, store
      ensures d == Decide(user, old(FormState()), churchKey)
      ensures !isPosting
      ensures showChurchIdModal == (old(showChurchIdModal) || d == NeedsChurchId)
      ensures FormState() == old(FormState()) && currentHashtag == old(currentHashtag)
      ensures navigateTo == if d.Proceed? then Some("/calendar") else None
      ensures !d.Proceed? ==> store.contents == old(store.contents) && store.error == old(store.error)
                              && store.loading == old(store.loading)
      ensures d.Proceed? && insertFailure.Some? ==> store.contents == old(store.contents) && store.error == insertFailure
      ensures d.Proceed? ==> !store.loading
      ensures d.Proceed? && insertFailure.None? && table.Ok? ==>
                store.contents == ContentStore.ChurchRows(table.value, d.record.churchId) && store.error == old(store.error)
      ensures d.Proceed? && insertFailure.None? && table.Err? ==>
                store.contents == old(store.contents) && store.error == Some(table.msg)
    {
      d := Decide(user, FormState(), churchKey);
      navigateTo := None;
      if d == NeedsChurchId {
        showChurchIdModal := true;
      }
      if d.Proceed? {
        isPosting := true;
        var sent := store.CreateContent(d.record, now, insertFailure, table);
        navigateTo := Some("/calendar");
      }
      isPosting := false;
    }
  }
}
