/** The announcements page: the sorted tag list, the search-and-tag filter
    with its newest-first order, and the page state (search text, selected
    tags, the one expanded announcement). The data is `None` until the fetch
    has produced it. */
module Announcements {
  import opened Wrappers
  import opened Types
  import Seqs
  import Text
  import opened StringOrder

  /** The memoised `allTags`: every tag is added to a set, which is then
      listed in ascending order. Without data the list is empty. */
  method AllTags(data: Option<seq<Announcement>>) returns (tags: seq<string>)
    ensures data.None? ==> tags == []
    ensures data.Some? ==>
              forall t :: t in tags <==> exists i :: 0 <= i < |data.value| && t in data.value[i].tags
    ensures StrictlySorted(tags)
  {
    if data.None? {
      return [];
    }
    var anns := data.value;
    // insertion-ordered contents of the `Set`
    var seen: seq<string> := [];
    var k := 0;
    while k < |anns|
      invariant k <= |anns|
      invariant Distinct(seen)
      invariant forall t :: t in seen <==> exists i :: 0 <= i < k && t in anns[i].tags
    {
      var ts := anns[k].tags;
      var m := 0;
      while m < |ts|
        invariant m <= |ts|
        invariant Distinct(seen)
        invariant forall t :: t in seen <==> (exists i :: 0 <= i < k && t in anns[i].tags) || t in ts[..m]
      {
        if ts[m] !in seen {
          seen := seen + [ts[m]];
        }
        assert ts[..m + 1] == ts[..m] + [ts[m]];
        m := m + 1;
      }
      assert ts[..m] == ts;
      k := k + 1;
    }
    tags := Sort(seen);
    SortDistinct(seen);
    forall t
      ensures t in tags <==> exists i :: 0 <= i < |anns| && t in anns[i].tags
    {
      assert t in tags <==> t in multiset(tags);
      assert t in seen <==> t in multiset(seen);
    }
  }

  /** The search box: an empty query keeps everything, otherwise the
      lower-cased query must occur in the lower-cased title or content. */
  predicate MatchesQuery(query: string, a: Announcement) {
    query == "" ||
    Text.Contains(Text.ToLower(a.title), Text.ToLower(query)) ||
    Text.Contains(Text.ToLower(a.content), Text.ToLower(query))
  }

  /** The tag chips: no selection keeps everything, otherwise some tag of
      the announcement must be selected. */
  predicate MatchesTags(selected: seq<string>, a: Announcement) {
    selected == [] || exists k :: 0 <= k < |a.tags| && a.tags[k] in selected
  }

  predicate Keep(query: string, selected: seq<string>, a: Announcement) {
    MatchesQuery(query, a) && MatchesTags(selected, a)
  }

  function KeepFilter(query: string, selected: seq<string>): Announcement -> bool {
    a => Keep(query, selected, a)
  }

  predicate NewestFirst(s: seq<Announcement>) {
    forall i, j :: 0 <= i < j < |s| ==> s[i].date >= s[j].date
  }

  /** Places `x` before the first element that is not newer than it. */
  function InsertByDate(x: Announcement, s: seq<Announcement>): (r: seq<Announcement>)
    ensures multiset(r) == multiset(s) + multiset{x}
  {
    if s == [] then [x]
    else if x.date >= s[0].date then [x] + s
    else
      assert s == [s[0]] + s[1..];
      [s[0]] + InsertByDate(x, s[1..])
  }

  /** Inserting an announcement no newer than `date` into a list no newer
      than `date` gives a list no newer than `date`. */
  lemma InsertKeepsBound(x: Announcement, s: seq<Announcement>, date: int)
    requires x.date <= date
    requires forall k :: 0 <= k < |s| ==> s[k].date <= date
    ensures forall j :: 0 <= j < |InsertByDate(x, s)| ==> InsertByDate(x, s)[j].date <= date
  {
    var t := InsertByDate(x, s);
    forall j | 0 <= j < |t|
      ensures t[j].date <= date
    {
      assert t[j] in multiset(t);
      if t[j] != x {
        assert t[j] in multiset(s);
      }
    }
  }

  lemma {:induction false} InsertByDateSorted(x: Announcement, s: seq<Announcement>)
    requires NewestFirst(s)
    ensures NewestFirst(InsertByDate(x, s))
  {
    if s != [] && x.date < s[0].date {
      var t := InsertByDate(x, s[1..]);
      InsertByDateSorted(x, s[1..]);
      InsertKeepsBound(x, s[1..], s[0].date);
      assert InsertByDate(x, s) == [s[0]] + t;
    }
  }

  /** The comparator `date(b) - date(a)`: newest first, equal dates keep
      their relative order. */
  function SortNewestFirst(s: seq<Announcement>): (r: seq<Announcement>)
    ensures multiset(r) == multiset(s)
    ensures NewestFirst(r)
  {
    if s == [] then []
    else
      assert s == [s[0]] + s[1..];
      var t := SortNewestFirst(s[1..]);
      InsertByDateSorted(s[0], t);
      InsertByDate(s[0], t)
  }

  /** The memoised `filteredAnnouncements`. */
  function Filtered(data: Option<seq<Announcement>>, query: string, selected: seq<string>): (r: seq<Announcement>)
    ensures data.None? ==> r == []
    ensures data.Some? ==> multiset(r) <= multiset(data.value)
    ensures data.Some? ==> multiset(r) == multiset(Seqs.Filter(data.value, KeepFilter(query, selected)))
    ensures forall i :: 0 <= i < |r| ==> Keep(query, selected, r[i])
    ensures data.Some? ==>
              forall i :: 0 <= i < |data.value| && Keep(query, selected, data.value[i]) ==> data.value[i] in r
    ensures NewestFirst(r)
  {
    if data.None? then []
    else
      var kept := Seqs.Filter(data.value, KeepFilter(query, selected));
      var r := SortNewestFirst(kept);
      Seqs.SameMembers(r, kept);
      r
  }

  /** With an empty query and no selected tag every announcement is kept,
      each exactly as often as in the data. */
  lemma NoFiltersKeepAll(anns: seq<Announcement>)
    ensures multiset(Filtered(Some(anns), "", [])) == multiset(anns)
  {
    Seqs.FilterAll(anns, KeepFilter("", []));
  }

  /** `prev.includes(tag) ? prev.filter(t => t !== tag) : [...prev, tag]` */
  function Toggled(prev: seq<string>, tag: string): (r: seq<string>)
    ensures tag in r <==> tag !in prev
    ensures forall t :: t != tag ==> (t in r <==> t in prev)
    ensures tag !in prev ==> r == prev + [tag]
  {
    if tag in prev then
      var r := Seqs.Filter(prev, t => t != tag);
      assert forall t :: t != tag && t in prev ==> t in r by {
        forall t | t != tag && t in prev
          ensures t in r
        {
          var i :| 0 <= i < |prev| && prev[i] == t;
        }
      }
      r
    else prev + [tag]
  }

  /** Toggling the same tag twice restores which tags are selected. */
  lemma ToggleTwice(prev: seq<string>, tag: string)
    ensures forall t :: t in Toggled(Toggled(prev, tag), tag) <==> t in prev
  {
  }

  /** The tag bar: the first five tags inline, the rest under "Mais" when
      there are more than five. */
  datatype TagBar = TagBar(inline: seq<string>, more: Option<seq<string>>)

  function TagBarOf(allTags: seq<string>): (r: TagBar)
    ensures |r.inline| <= 5
    ensures r.more.Some? <==> |allTags| > 5
    ensures r.more.None? ==> r.inline == allTags
    ensures r.more.Some? ==> r.inline + r.more.value == allTags && |r.inline| == 5
  {
    var inline := Seqs.Take(allTags, 5);
    if |allTags| > 5 then TagBar(inline, Some(Seqs.Drop(allTags, 5)))
    else TagBar(inline, None)
  }

  /** The page's own state. */
  class AnnouncementsPage {
    var searchQuery: string
    var selectedTags: seq<string>
    var openId: Option<string>

    constructor()
      ensures searchQuery == "" && selectedTags == [] && openId == None
    {
      searchQuery := "";
      selectedTags := [];
      openId := None;
    }

    /** The list the page shows for the fetched data. */
    function Shown(data: Option<seq<Announcement>>): seq<Announcement>
      reads this
    {
      Filtered(data, searchQuery, selectedTags)
    }

    /** The search box's `onChange`. */
    method SetSearchQuery(query: string)
      modifies this
      ensures searchQuery == query
      ensures selectedTags == old(selectedTags) && openId == old(openId)
    {
      searchQuery := query;
    }

    method ToggleTag(tag: string)
      modifies this
      ensures selectedTags == Toggled(old(selectedTags), tag)
      ensures searchQuery == old(searchQuery) && openId == old(openId)
    {
      selectedTags := Toggled(selectedTags, tag);
    }

    /** After clearing, the page shows every fetched announcement. */
    method ClearFilters()
      modifies this
      ensures searchQuery == "" && selectedTags == []
      ensures openId == old(openId)
      ensures forall data: Option<seq<Announcement>> :: data.Some? ==>
                multiset(Shown(data)) == multiset(data.value)
    {
      searchQuery := "";
      selectedTags := [];
      forall data: Option<seq<Announcement>> | data.Some?
        ensures multiset(Shown(data)) == multiset(data.value)
      {
        NoFiltersKeepAll(data.value);
      }
    }

    /** Clicking the open announcement closes it; clicking another opens
        that one instead, so at most one is ever open. */
    method ToggleAnnouncement(id: string)
      modifies this
      ensures old(openId) == Some(id) ==> openId == None
      ensures old(openId) != Some(id) ==> openId == Some(id)
      ensures searchQuery == old(searchQuery) && selectedTags == old(selectedTags)
    {
      openId := if openId == Some(id) then None else Some(id);
    }
  }
}
