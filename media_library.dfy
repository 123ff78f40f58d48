/** The media library page (src/pages/media/MediaLibrary.tsx): the list
    filtered by content type and by a case-insensitive title search, newest
    first, and the button that clears both filters. Lower-casing is ASCII
    only. */
module MediaLibrary {
  import opened Types
  import opened Text
  import Seqs

  datatype MediaItem = MediaItem(
    id: string,
    title: string,
    contentType: ContentType,
    thumbnailUrl: string,
    platforms: seq<Platform>,
    createdAt: Time,
    status: string)

  /** `ContentType | 'all'`. */
  datatype TypeFilter = All | OnlyType(contentType: ContentType)

  predicate TypeMatches(x: MediaItem, selected: TypeFilter) {
    selected.All? || x.contentType == selected.contentType
  }

  predicate TitleMatches(x: MediaItem, search: string) {
    search == "" || Contains(ToLowerAscii(x.title), ToLowerAscii(search))
  }

  /** `filter`'s key. */
  predicate Shown(x: MediaItem, selected: TypeFilter, search: string) {
    TypeMatches(x, selected) && TitleMatches(x, search)
  }

  /** The sort key: later `createdAt` first. */
  function NewestFirst(x: MediaItem): int {
    -x.createdAt
  }

  /** `filteredMedia`: exactly the items that pass both filters, each as
      often as in the list, newest first. */
  function FilteredMedia(items: seq<MediaItem>, selected: TypeFilter, search: string): (r: seq<MediaItem>)
    ensures forall x :: x in r <==> x in items && Shown(x, selected, search)
    ensures forall x :: multiset(r)[x] == if Shown(x, selected, search) then multiset(items)[x] else 0
    ensures forall i, j :: 0 <= i < j < |r| ==> r[i].createdAt >= r[j].createdAt
  {
    var kept := Seqs.Filter((x: MediaItem) => Shown(x, selected, search), items);
    var r := Seqs.SortBy(kept, NewestFirst);
    assert forall x :: x in r <==> x in multiset(kept);
    r
  }

  /** With both filters cleared the page shows every item, newest first. */
  lemma ClearedShowsEverything(items: seq<MediaItem>)
    ensures multiset(FilteredMedia(items, All, "")) == multiset(items)
  {
    var r := FilteredMedia(items, All, "");
    assert forall x :: multiset(r)[x] == multiset(items)[x];
  }

  /** The search ignores ASCII case: searching the lower-cased term shows
      the same items. */
  lemma SearchIgnoresCase(x: MediaItem, selected: TypeFilter, search: string)
    ensures Shown(x, selected, ToLowerAscii(search)) == Shown(x, selected, search)
  {
    ToLowerIdempotent(search);
  }

  /** Selecting a type shows only items of that type; searching shows
      only items whose lower-cased title contains the lower-cased term. */
  lemma FiltersNarrow(items: seq<MediaItem>, t: ContentType, search: string)
    ensures forall x :: x in FilteredMedia(items, OnlyType(t), search) ==> x.contentType == t
    ensures search != "" ==> forall x :: x in FilteredMedia(items, All, search) ==>
                                          Contains(ToLowerAscii(x.title), ToLowerAscii(search))
  {
  }

  /** The page's filter state. */
  class Filters {
    var searchTerm: string
    var selectedType: TypeFilter

    constructor ()
      ensures searchTerm == "" && selectedType == All
    {
      searchTerm, selectedType := "", All;
    }

    method SetSearchTerm(term: string)
      modifies this
      ensures searchTerm == term && selectedType == old(selectedType)
    {
      searchTerm := term;
    }

    method SetSelectedType(t: TypeFilter)
      modifies this
      ensures selectedType == t && searchTerm == old(searchTerm)
    {
      selectedType := t;
    }

    /** "Clear filters". */
    method ClearFilters()
      modifies this
      ensures searchTerm == "" && selectedType == All
    {
      searchTerm := "";
      selectedType := All;
    }
  }
}
