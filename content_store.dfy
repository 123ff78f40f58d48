/** The content store (src/store/contentStore.ts): the signed-in church's
    content list with its `loading` flag and last error. The `contents` table
    is a parameter: each database call is given the outcome it returns. */
module ContentStore {
  import opened Wrappers
  import opened Types
  import Seqs

  /** A content item before the database gives it an id and timestamps. */
  datatype NewContent = NewContent(
    title: string,
    description: Option<string>,
    contentType: ContentType,
    mediaUrl: Option<string>,
    platforms: seq<Platform>,
    status: PostStatus,
    scheduledFor: Option<Time>,
    authorId: string,
    churchId: string,
    hashtags: seq<string>)

  /** The record `createContent` inserts: the new content stamped with the
      creation time twice. */
  datatype InsertedRow = InsertedRow(content: NewContent, createdAt: Time, updatedAt: Time)

  /** A `Partial<Content>`: each present field replaces the item's own. */
  datatype ContentPatch = ContentPatch(
    id: Option<string>,
    title: Option<string>,
    description: Option<string>,
    contentType: Option<ContentType>,
    mediaUrl: Option<string>,
    platforms: Option<seq<Platform>>,
    status: Option<PostStatus>,
    scheduledFor: Option<Time>,
    authorId: Option<string>,
    churchId: Option<string>,
    hashtags: Option<seq<string>>,
    createdAt: Option<Time>)

  const EmptyPatch: ContentPatch := ContentPatch(None, None, None, None, None, None, None, None, None, None, None, None)

  function Pick<T>(p: Option<T>, own: T): T {
    if p.Some? then p.value else own
  }

  function PickOpt<T>(p: Option<T>, own: Option<T>): Option<T> {
    if p.Some? then p else own
  }

  /** `{ ...item, ...patch, updatedAt: now }`. */
  function Merge(item: Content, patch: ContentPatch, now: Time): (r: Content)
    ensures r.updatedAt == now
    ensures r.id == (if patch.id.Some? then patch.id.value else item.id)
    ensures r.title == (if patch.title.Some? then patch.title.value else item.title)
    ensures r.description == (if patch.description.Some? then patch.description else item.description)
    ensures r.contentType == (if patch.contentType.Some? then patch.contentType.value else item.contentType)
    ensures r.mediaUrl == (if patch.mediaUrl.Some? then patch.mediaUrl else item.mediaUrl)
    ensures r.platforms == (if patch.platforms.Some? then patch.platforms.value else item.platforms)
    ensures r.status == (if patch.status.Some? then patch.status.value else item.status)
    ensures r.scheduledFor == (if patch.scheduledFor.Some? then patch.scheduledFor else item.scheduledFor)
    ensures r.authorId == (if patch.authorId.Some? then patch.authorId.value else item.authorId)
    ensures r.churchId == (if patch.churchId.Some? then patch.churchId.value else item.churchId)
    ensures r.hashtags == (if patch.hashtags.Some? then patch.hashtags.value else item.hashtags)
    ensures r.createdAt == (if patch.createdAt.Some? then patch.createdAt.value else item.createdAt)
    ensures patch == EmptyPatch ==> r == item.(updatedAt := now)
  {
    Content(
      Pick(patch.id, item.id),
      Pick(patch.title, item.title),
      PickOpt(patch.description, item.description),
      Pick(patch.contentType, item.contentType),
      PickOpt(patch.mediaUrl, item.mediaUrl),
      Pick(patch.platforms, item.platforms),
      Pick(patch.status, item.status),
      PickOpt(patch.scheduledFor, item.scheduledFor),
      Pick(patch.authorId, item.authorId),
      Pick(patch.churchId, item.churchId),
      Pick(patch.hashtags, item.hashtags),
      Pick(patch.createdAt, item.createdAt),
      now)
  }

  /** `contents.map(item => item.id === id ? merged : item)`. */
  function UpdateItems(contents: seq<Content>, id: string, patch: ContentPatch, now: Time): (r: seq<Content>)
    ensures |r| == |contents|
    ensures forall k :: 0 <= k < |r| ==> r[k] == if contents[k].id == id then Merge(contents[k], patch, now) else contents[k]
  {
    Seqs.Map((item: Content) => if item.id == id then Merge(item, patch, now) else item, contents)
  }

  /** `contents.map(...)` setting the schedule, the status and the time. */
  function ScheduleItems(contents: seq<Content>, id: string, when: Time, now: Time): (r: seq<Content>)
    ensures |r| == |contents|
    ensures forall k :: 0 <= k < |r| ==>
              r[k] == if contents[k].id == id
                      then contents[k].(scheduledFor := Some(when), status := Scheduled, updatedAt := now)
                      else contents[k]
  {
    Seqs.Map((item: Content) => if item.id == id
                                then item.(scheduledFor := Some(when), status := Scheduled, updatedAt := now)
                                else item, contents)
  }

  /** `contents.filter(item => item.id !== id)`. */
  function DeleteItems(contents: seq<Content>, id: string): (r: seq<Content>)
    ensures forall x :: x in r <==> x in contents && x.id != id
    ensures forall x: Content :: x.id != id ==> multiset(r)[x] == multiset(contents)[x]
  {
    Seqs.Filter((item: Content) => item.id != id, contents)
  }

  predicate IsTimed(c: Content) { c.scheduledFor.Some? }

  predicate IsUntimed(c: Content) { c.scheduledFor.None? }

  function ScheduleKey(c: Content): int {
    if c.scheduledFor.Some? then c.scheduledFor.value else 0
  }

  function OfChurch(table: seq<Content>, churchId: string): seq<Content> {
    Seqs.Filter((c: Content) => c.churchId == churchId, table)
  }

  /** The rows `select('*').eq('churchId', c).order('scheduledFor')`
      returns: the church's scheduled rows by ascending time (ties in table
      order), then its unscheduled rows, as PostgreSQL sorts nulls last. */
  function ChurchRows(table: seq<Content>, churchId: string): seq<Content> {
    var mine := OfChurch(table, churchId);
    Seqs.SortBy(Seqs.Filter(IsTimed, mine), ScheduleKey) + Seqs.Filter(IsUntimed, mine)
  }

  /** The fetched list holds exactly the church's rows. */
  lemma ChurchRowsKeepsRows(table: seq<Content>, churchId: string)
    ensures multiset(ChurchRows(table, churchId)) == multiset(OfChurch(table, churchId))
  {
    var mine := OfChurch(table, churchId);
    var timed := Seqs.Filter(IsTimed, mine);
    var untimed := Seqs.Filter(IsUntimed, mine);
    var sorted := Seqs.SortBy(timed, ScheduleKey);
    assert multiset(sorted + untimed) == multiset(sorted) + multiset(untimed);
    forall x ensures multiset(timed)[x] + multiset(untimed)[x] == multiset(mine)[x] {
      if IsTimed(x) {
        assert multiset(untimed)[x] == 0;
      } else {
        assert multiset(timed)[x] == 0;
      }
    }
    assert multiset(timed) + multiset(untimed) == multiset(mine);
  }

  /** No fetched row is preceded by a later-scheduled or an unscheduled
      one. */
  lemma ChurchRowsOrdered(table: seq<Content>, churchId: string)
    ensures var r := ChurchRows(table, churchId);
            forall i, j :: 0 <= i < j < |r| && IsTimed(r[j]) ==> IsTimed(r[i]) && ScheduleKey(r[i]) <= ScheduleKey(r[j])
  {
    var mine := OfChurch(table, churchId);
    var timed := Seqs.Filter(IsTimed, mine);
    var untimed := Seqs.Filter(IsUntimed, mine);
    var sorted := Seqs.SortBy(timed, ScheduleKey);
    AllTimedAfterSort(timed, sorted);
    var r := sorted + untimed;
    forall i, j | 0 <= i < j < |r| && IsTimed(r[j])
      ensures IsTimed(r[i]) && ScheduleKey(r[i]) <= ScheduleKey(r[j])
    {
      if j < |sorted| {
        assert r[i] == sorted[i] && r[j] == sorted[j];
      }
    }
  }

  lemma AllTimedAfterSort(timed: seq<Content>, sorted: seq<Content>)
    requires forall k :: 0 <= k < |timed| ==> IsTimed(timed[k])
    requires multiset(sorted) == multiset(timed)
    ensures forall k :: 0 <= k < |sorted| ==> IsTimed(sorted[k])
  {
    forall k | 0 <= k < |sorted| ensures IsTimed(sorted[k]) {
      assert sorted[k] in multiset(timed);
    }
  }

  /** Only the items with the given id change, each by the merge; the
      others and the order are kept. */
  lemma UpdateTouchesOnlyId(contents: seq<Content>, id: string, patch: ContentPatch, now: Time, k: nat)
    requires k < |contents|
    ensures contents[k].id != id ==> UpdateItems(contents, id, patch, now)[k] == contents[k]
    ensures contents[k].id == id ==> UpdateItems(contents, id, patch, now)[k].updatedAt == now
    ensures contents[k].id == id && patch.id.None? ==> UpdateItems(contents, id, patch, now)[k].id == id
  {
  }

  /** After a delete no item has the id, every other item is still there as
      often as before and in the same order, and deleting again changes
      nothing. */
  lemma DeleteRemovesExactlyId(contents: seq<Content>, id: string)
    ensures forall x :: x in DeleteItems(contents, id) ==> x.id != id
    ensures Seqs.IsSubsequence(DeleteItems(contents, id), contents)
    ensures DeleteItems(DeleteItems(contents, id), id) == DeleteItems(contents, id)
  {
    Seqs.FilterIsSubsequence((item: Content) => item.id != id, contents);
    Seqs.FilterAll((item: Content) => item.id != id, DeleteItems(contents, id));
  }

  /** Scheduling is an update whose patch holds the time and the status. */
  lemma ScheduleIsUpdate(contents: seq<Content>, id: string, when: Time, now: Time)
    ensures ScheduleItems(contents, id, when, now)
            == UpdateItems(contents, id, EmptyPatch.(scheduledFor := Some(when), status := Some(Scheduled)), now)
  {
  }

  /** The store. Every action raises `loading` while it waits; the model
      shows the state once the action is over. */
  class Store {
    var contents: seq<Content>
    var loading: bool
    var error: Option<string>

    constructor ()
      ensures contents == [] && !loading && error == None
    {
      contents := [];
      loading := false;
      error := None;
    }

    /** The end of every failed action: the message is recorded, the list
        is kept. */
    method Fail(msg: string)
      modifies this
      ensures contents == old(contents) && !loading && error == Some(msg)
    {
      error := Some(msg);
      loading := false;
    }

    /** `getContents(churchId)`; `table` is the query's outcome: its error or
        every row of the table. A success leaves `error` as it was. */
    method GetContents(churchId: string, table: Result<seq<Content>>)
      modifies this
      ensures !loading
      ensures table.Ok? ==> contents == ChurchRows(table.value, churchId) && error == old(error)
      ensures table.Err? ==> contents == old(contents) && error == Some(table.msg)
    {
      loading := true;
      match table
      case Ok(rows) =>
        contents := ChurchRows(rows, churchId);
        loading := false;
      case Err(msg) =>
        Fail(msg);
    }

    /** `createContent`: insert the stamped record, then reload the church's
        list. Its own errors end up in `error`; it never throws. */
    method CreateContent(c: NewContent, now: Time, insertFailure: Option<string>, table: Result<seq<Content>>)
      returns (sent: InsertedRow)
      modifies this
      ensures sent == InsertedRow(c, now, now)
      ensures !loading
      ensures insertFailure.Some? ==> contents == old(contents) && error == insertFailure
      ensures insertFailure.None? && table.Ok? ==> contents == ChurchRows(table.value, c.churchId) && error == old(error)
      ensures insertFailure.None? && table.Err? ==> contents == old(contents) && error == Some(table.msg)
    {
      loading := true;
      sent := InsertedRow(c, now, now);
      if insertFailure.Some? {
        Fail(insertFailure.value);
      } else {
        GetContents(c.churchId, table);
      }
    }

    /** `updateContent(id, patch)`. */
    method UpdateContent(id: string, patch: ContentPatch, now: Time, failure: Option<string>)
      modifies this
      ensures !loading
      ensures failure.None? ==> contents == UpdateItems(old(contents), id, patch, now) && error == old(error)
      ensures failure.Some? ==> contents == old(contents) && error == failure
    {
      loading := true;
      if failure.Some? {
        Fail(failure.value);
      } else {
        contents := UpdateItems(contents, id, patch, now);
        loading := false;
      }
    }

    /** `deleteContent(id)`. */
    method DeleteContent(id: string, failure: Option<string>)
      modifies this
      ensures !loading
      ensures failure.None? ==> contents == DeleteItems(old(contents), id) && error == old(error)
      ensures failure.Some? ==> contents == old(contents) && error == failure
    {
      loading := true;
      if failure.Some? {
        Fail(failure.value);
      } else {
        contents := DeleteItems(contents, id);
        loading := false;
      }
    }

    /** `scheduleContent(id, when)`. */
    method ScheduleContent(id: string, when: Time, now: Time, failure: Option<string>)
      modifies this
      ensures !loading
      ensures failure.None? ==> contents == ScheduleItems(old(contents), id, when, now) && error == old(error)
      ensures failure.Some? ==> contents == old(contents) && error == failure
    {
      loading := true;
      if failure.Some? {
        Fail(failure.value);
      } else {
        contents := ScheduleItems(contents, id, when, now);
        loading := false;
      }
    }
  }
}
