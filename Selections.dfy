/**
 * The catalog controller (src/actors/youtube-selections-controller.ts): the circular
 * next-item map built from a result page, the pager buttons, the `ignoreClicks` latch and
 * the search-term rule of the picker. The 3D cards, layouts and assets are not modelled.
 */
module Selections {
  import opened Wrappers
  import opened Models
  import YtService

  const PageSize := 18

  // ---------------------------------------------------------------- next-item map

  /**
   * The variables of the mapping loop: the map so far, the id of the previous item
   * (`""` stands for both undefined and the empty id, which the loop treats alike)
   * and the first item of the current chain.
   */
  datatype LinkState = LinkState(mapping: map<string, VideoStream>, prev: string, first: Option<VideoStream>)

  /** A previous id is only ever set together with a first item. */
  predicate Linked(st: LinkState) {
    st.prev != "" ==> st.first.Some?
  }

  /** One iteration: the first item of a chain is remembered, every later one is mapped from its predecessor. */
  function LinkStep(st: LinkState, stream: VideoStream): (r: LinkState)
    ensures Linked(r) || !Linked(st)
    ensures r.prev == stream.id
  {
    if st.prev == "" then st.(first := Some(stream), prev := stream.id)
    else LinkState(st.mapping[st.prev := stream], stream.id, st.first)
  }

  function LinkFold(st: LinkState, streams: seq<VideoStream>): (r: LinkState)
    ensures Linked(st) ==> Linked(r)
    decreases |streams|
  {
    if |streams| == 0 then st else LinkFold(LinkStep(st, streams[0]), streams[1..])
  }

  const NoLinks := LinkState(map[], "", None)

  /** The map the page loop leaves behind: each item's successor, the last item closing the circle back to the first. */
  function NextStreamMapping(streams: seq<VideoStream>): map<string, VideoStream> {
    var st := LinkFold(NoLinks, streams);
    if st.prev != "" && |st.mapping| > 0 then st.mapping[st.prev := st.first.value] else st.mapping
  }

  /** The page loop of displayPage, rebuilding the map with `prev` and `first`. */
  method BuildNextStreamMapping(streams: seq<VideoStream>) returns (nextStreamMapping: map<string, VideoStream>)
    ensures nextStreamMapping == NextStreamMapping(streams)
  {
    nextStreamMapping := map[];
    var prev := "";
    var first: Option<VideoStream> := None;
    var i := 0;
    while i < |streams|
      invariant 0 <= i <= |streams|
      invariant Linked(LinkState(nextStreamMapping, prev, first))
      invariant LinkFold(LinkState(nextStreamMapping, prev, first), streams[i..]) == LinkFold(NoLinks, streams)
    {
      var stream := streams[i];
      assert streams[i..][0] == stream && streams[i..][1..] == streams[i + 1..];
      if prev == "" {
        first := Some(stream);
      } else {
        nextStreamMapping := nextStreamMapping[prev := stream];
      }
      prev := stream.id;
      i := i + 1;
    }
    if prev != "" && |nextStreamMapping| > 0 {
      nextStreamMapping := nextStreamMapping[prev := first.value];
    }
  }

  /** getNextStream: the successor recorded for `streamId`, if any. */
  function GetNextStream(nextStreamMapping: map<string, VideoStream>, streamId: string): (r: Option<VideoStream>)
    ensures r.Some? <==> streamId in nextStreamMapping
    ensures r.Some? ==> r.value == nextStreamMapping[streamId]
  {
    if streamId in nextStreamMapping then Some(nextStreamMapping[streamId]) else None
  }

  lemma {:induction false} LinkFoldSnoc(st: LinkState, streams: seq<VideoStream>, last: VideoStream)
    ensures LinkFold(st, streams + [last]) == LinkStep(LinkFold(st, streams), last)
    decreases |streams|
  {
    if |streams| == 0 {
      assert [] + [last] == [last];
      assert [last][1..] == [];
    } else {
      assert (streams + [last])[0] == streams[0];
      assert (streams + [last])[1..] == streams[1..] + [last];
      LinkFoldSnoc(LinkStep(st, streams[0]), streams[1..], last);
    }
  }

  /** Ids of the page that are all non-empty and pairwise distinct. */
  predicate DistinctIds(streams: seq<VideoStream>) {
    (forall i :: 0 <= i < |streams| ==> streams[i].id != "") &&
    (forall i, j :: 0 <= i < j < |streams| ==> streams[i].id != streams[j].id)
  }

  /** After `k >= 1` items the loop has linked each item to its successor and remembers the first. */
  lemma {:induction false} LinkPrefix(streams: seq<VideoStream>, k: nat)
    requires DistinctIds(streams) && 1 <= k <= |streams|
    ensures LinkFold(NoLinks, streams[..k]).prev == streams[k - 1].id
    ensures LinkFold(NoLinks, streams[..k]).first == Some(streams[0])
    ensures forall i :: 0 <= i < k - 1 ==>
              streams[i].id in LinkFold(NoLinks, streams[..k]).mapping &&
              LinkFold(NoLinks, streams[..k]).mapping[streams[i].id] == streams[i + 1]
    ensures forall id :: id in LinkFold(NoLinks, streams[..k]).mapping ==>
              exists i :: 0 <= i < k - 1 && streams[i].id == id
  {
    if k == 1 {
      assert streams[..1] == [streams[0]];
      assert [streams[0]][1..] == [];
    } else {
      LinkPrefix(streams, k - 1);
      assert streams[..k] == streams[..k - 1] + [streams[k - 1]];
      LinkFoldSnoc(NoLinks, streams[..k - 1], streams[k - 1]);
      var before := LinkFold(NoLinks, streams[..k - 1]);
      var after := LinkFold(NoLinks, streams[..k]);
      assert after.mapping == before.mapping[streams[k - 2].id := streams[k - 1]];
      forall i | 0 <= i < k - 1
        ensures streams[i].id in after.mapping && after.mapping[streams[i].id] == streams[i + 1]
      {
        if i < k - 2 {
          assert streams[i].id != streams[k - 2].id;
        }
      }
      forall id | id in after.mapping
        ensures exists i :: 0 <= i < k - 1 && streams[i].id == id
      {
        if id != streams[k - 2].id {
          assert id in before.mapping;
        }
      }
    }
  }

  /** The map of a page of distinct non-empty ids before the last item is linked back. */
  lemma ChainedMapping(streams: seq<VideoStream>)
    requires DistinctIds(streams) && |streams| >= 2
    ensures var st := LinkFold(NoLinks, streams);
            st.prev == streams[|streams| - 1].id && st.first == Some(streams[0]) && streams[0].id in st.mapping
            && NextStreamMapping(streams) == st.mapping[streams[|streams| - 1].id := streams[0]]
            && forall i :: 0 <= i < |streams| - 1 ==>
                 streams[i].id in st.mapping && st.mapping[streams[i].id] == streams[i + 1]
  {
    LinkPrefix(streams, |streams|);
    assert streams[..|streams|] == streams;
  }

  /**
   * For a page of N >= 2 distinct non-empty ids, each item's successor is the next item
   * and the last item's successor is the first.
   */
  lemma CircularMapping(streams: seq<VideoStream>)
    requires DistinctIds(streams) && |streams| >= 2
    ensures forall i :: 0 <= i < |streams| - 1 ==>
              GetNextStream(NextStreamMapping(streams), streams[i].id) == Some(streams[i + 1])
    ensures GetNextStream(NextStreamMapping(streams), streams[|streams| - 1].id) == Some(streams[0])
  {
    ChainedMapping(streams);
    var n := |streams|;
    forall i | 0 <= i < n - 1
      ensures GetNextStream(NextStreamMapping(streams), streams[i].id) == Some(streams[i + 1])
    {
      assert streams[i].id != streams[n - 1].id;
    }
  }

  /** Only ids of the page have a successor. */
  lemma MappingDomain(streams: seq<VideoStream>)
    requires DistinctIds(streams) && |streams| >= 2
    ensures forall id :: id in NextStreamMapping(streams) ==> exists i :: 0 <= i < |streams| && streams[i].id == id
  {
    LinkPrefix(streams, |streams|);
    assert streams[..|streams|] == streams;
  }

  /** `k` applications of getNextStream, starting from `stream`. */
  function Advance(nextStreamMapping: map<string, VideoStream>, stream: VideoStream, k: nat): Option<VideoStream>
    decreases k
  {
    if k == 0 then Some(stream)
    else
      var next := GetNextStream(nextStreamMapping, stream.id);
      if next.None? then None else Advance(nextStreamMapping, next.value, k - 1)
  }

  lemma {:induction false} AdvanceCompose(m: map<string, VideoStream>, stream: VideoStream, a: nat, b: nat)
    requires Advance(m, stream, a).Some?
    ensures Advance(m, stream, a + b) == Advance(m, Advance(m, stream, a).value, b)
    decreases a
  {
    if a > 0 {
      AdvanceCompose(m, GetNextStream(m, stream.id).value, a - 1, b);
    }
  }

  /** `m` links the items of `streams` into one circle, in page order. */
  predicate Cyclic(m: map<string, VideoStream>, streams: seq<VideoStream>) {
    |streams| >= 2
    && (forall i :: 0 <= i < |streams| - 1 ==> GetNextStream(m, streams[i].id) == Some(streams[i + 1]))
    && GetNextStream(m, streams[|streams| - 1].id) == Some(streams[0])
  }

  lemma {:induction false} AdvanceAlong(m: map<string, VideoStream>, streams: seq<VideoStream>, i: nat, k: nat)
    requires Cyclic(m, streams) && i + k < |streams|
    ensures Advance(m, streams[i], k) == Some(streams[i + k])
    decreases k
  {
    if k > 0 {
      AdvanceAlong(m, streams, i + 1, k - 1);
    }
  }

  /** Around a circle, N steps from any item return to it. */
  lemma CycleOrbit(m: map<string, VideoStream>, streams: seq<VideoStream>, j: nat)
    requires Cyclic(m, streams) && j < |streams|
    ensures Advance(m, streams[j], |streams|) == Some(streams[j])
  {
    var n := |streams|;
    AdvanceAlong(m, streams, j, n - 1 - j);
    AdvanceCompose(m, streams[j], n - 1 - j, j + 1);
    assert Advance(m, streams[n - 1], 1) == Some(streams[0]) by {
      assert Advance(m, streams[0], 0) == Some(streams[0]);
    }
    AdvanceCompose(m, streams[n - 1], 1, j);
    AdvanceAlong(m, streams, 0, j);
  }

  /** Following the map from any item of such a page returns to that item after N steps. */
  lemma Orbit(streams: seq<VideoStream>, j: nat)
    requires DistinctIds(streams) && |streams| >= 2 && j < |streams|
    ensures Advance(NextStreamMapping(streams), streams[j], |streams|) == Some(streams[j])
  {
    CircularMapping(streams);
    CycleOrbit(NextStreamMapping(streams), streams, j);
  }

  /** A one-item page leaves the map empty, so no item has a successor. */
  lemma SingleItemPage(stream: VideoStream, streamId: string)
    ensures NextStreamMapping([stream]) == map[]
    ensures GetNextStream(NextStreamMapping([stream]), streamId).None?
  {
    assert [stream][1..] == [];
    assert LinkFold(NoLinks, [stream]) == LinkFold(LinkStep(NoLinks, stream), []);
  }

  // ---------------------------------------------------------------- pager

  function CeilDiv(a: int, b: int): int
    requires b > 0
  {
    (a + b - 1) / b
  }

  /** The pager setup leaves behind: an existing pager is kept, otherwise a first page of 18 of 18 items. */
  function InitialPager(existing: Option<Pager>): (r: Pager)
    ensures existing.Some? ==> r == existing.value
    ensures existing.None? ==> r.start == 0 && r.pageSize == PageSize && !r.displayed
                               && r.totalCount == PageSize && r.numberPages == 1
  {
    if existing.Some? then existing.value
    else
      var pager := Pager(0, PageSize, false, PageSize, 0);
      pager.(numberPages := CeilDiv(pager.totalCount, PageSize))
  }

  /** handlePageNextButton: one page on, wrapping to the start past the total. */
  function PageNext(pager: Pager): (r: Pager)
    ensures r.pageSize == PageSize
    ensures r.start == if pager.start + PageSize > pager.totalCount then 0 else pager.start + PageSize
    ensures r.(start := pager.start, pageSize := pager.pageSize) == pager
  {
    var moved := pager.(start := pager.start + PageSize, pageSize := PageSize);
    if moved.start > moved.totalCount then moved.(start := 0) else moved
  }

  /** handlePrevPageButton: one page back, clamped at the first page. */
  function PagePrev(pager: Pager): (r: Pager)
    ensures r.pageSize == PageSize
    ensures r.start == if pager.start - PageSize < 0 then 0 else pager.start - PageSize
    ensures r.(start := pager.start, pageSize := pager.pageSize) == pager
  {
    var moved := pager.(start := pager.start - PageSize, pageSize := PageSize);
    if moved.start < 0 then moved.(start := 0) else moved
  }

  /** The page start stays between 0 and the total. */
  predicate InRange(pager: Pager) {
    0 <= pager.start <= pager.totalCount
  }

  lemma PagingKeepsRange(pager: Pager)
    requires InRange(pager)
    ensures InRange(PageNext(pager)) && InRange(PagePrev(pager))
  {
  }

  /** Within the total, "previous" undoes "next". */
  lemma PrevUndoesNext(pager: Pager)
    requires 0 <= pager.start && pager.start + PageSize <= pager.totalCount && pager.pageSize == PageSize
    ensures PagePrev(PageNext(pager)) == pager
  {
  }

  // ---------------------------------------------------------------- search term

  /** The search term after the prompt: replaced only by a submitted, non-empty answer. */
  function PromptedTerm(searchTerm: Option<string>, answer: Option<string>): (r: Option<string>)
    ensures answer.Some? && answer.value != "" ==> r == answer
    ensures answer.None? || answer.value == "" ==> r == searchTerm
  {
    if answer.Some? && answer.value != "" then answer else searchTerm
  }

  /** Whether the picker rebuilds the page: a non-empty term that differs from the previous search. */
  predicate NewSearch(searchTerm: Option<string>, previousSearch: string) {
    searchTerm.Some? && searchTerm.value != "" && searchTerm.value != previousSearch
  }

  /** The query sent to the search library. */
  function SearchQuery(searchTerm: string, karaokeEnabled: bool): (r: string)
    ensures karaokeEnabled <==> |r| > |searchTerm|
    ensures |r| >= |searchTerm| && r[..|searchTerm|] == searchTerm
    ensures karaokeEnabled ==> r[|searchTerm|..] == " karaoke"
  {
    searchTerm + (if karaokeEnabled then " karaoke" else "")
  }

  /** The streams of a result page: `None` when the search library or a result throws. */
  function PageStreams(query: string, pager: Pager, searchApi: string -> Option<seq<YtService.SearchItem>>): Option<seq<VideoStream>> {
    var items := searchApi(query);
    if items.None? then None else YtService.SearchResults(items.value, pager.totalCount)
  }

  /** The map displayPage leaves: rebuilt from a non-empty page, unchanged by an empty or failed one. */
  function MappingAfterPage(old_mapping: map<string, VideoStream>, streams: Option<seq<VideoStream>>)
    : (r: map<string, VideoStream>)
    ensures streams.None? || |streams.value| == 0 ==> r == old_mapping
    ensures streams.Some? && |streams.value| == 1 ==> r == map[]
  {
    assert streams.Some? && |streams.value| == 1 ==> NextStreamMapping(streams.value) == map[] by {
      if streams.Some? && |streams.value| == 1 {
        assert streams.value == [streams.value[0]];
        SingleItemPage(streams.value[0], "");
      }
    }
    if streams.Some? && |streams.value| > 0 then NextStreamMapping(streams.value) else old_mapping
  }

  // ---------------------------------------------------------------- controller

  class SelectionsController {
    const context: ScreenContext
    var previousSearch: string
    var nextStreamMapping: map<string, VideoStream>
    /** Whether `displayCardsBase` is set. */
    var hasCardsBase: bool

    ghost predicate Valid()
      reads this, context
    {
      context.ytSelectionsPager.Some?
    }

    /** The constructor runs setup: the pager is initialised if absent, the panel is created hidden. */
    constructor (context: ScreenContext)
      modifies context
      ensures this.context == context && Valid()
      ensures previousSearch == "" && nextStreamMapping == map[] && !hasCardsBase
      ensures context.ytSelectionsPager == Some(InitialPager(old(context.ytSelectionsPager)))
      ensures !context.selectionPanelEnabled
      ensures context.ignoreClicks == old(context.ignoreClicks) && context.searchTerm == old(context.searchTerm)
      ensures context.Playback() == old(context.Playback())
    {
      this.context := context;
      previousSearch := "";
      nextStreamMapping := map[];
      hasCardsBase := false;
      new;
      if context.ytSelectionsPager.None? {
        var pager := Pager(0, PageSize, false, PageSize, 0);
        pager := pager.(totalCount := PageSize);
        pager := pager.(numberPages := CeilDiv(pager.totalCount, PageSize));
        context.ytSelectionsPager := Some(pager);
      }
      context.selectionPanelEnabled := false;
    }

    function GetNextStreamOf(streamId: string): (r: Option<VideoStream>)
      reads this
      ensures r == GetNextStream(nextStreamMapping, streamId)
    {
      GetNextStream(nextStreamMapping, streamId)
    }

    /** displayPage: searches, and rebuilds the map from a non-empty page. `false` when the search throws. */
    method DisplayPage(karaokeEnabled: bool, searchApi: string -> Option<seq<YtService.SearchItem>>) returns (ok: bool)
      requires Valid()
      modifies this
      ensures var streams := PageStreams(SearchQuery(context.searchTerm.GetOr("undefined"), karaokeEnabled),
                                         context.ytSelectionsPager.value, searchApi);
              ok == streams.Some? && hasCardsBase == ok
              && nextStreamMapping == MappingAfterPage(old(nextStreamMapping), streams)
      ensures previousSearch == old(previousSearch)
    {
      hasCardsBase := false;
      var search := SearchQuery(context.searchTerm.GetOr("undefined"), karaokeEnabled);
      var items := searchApi(search);
      if items.None? {
        return false;
      }
      var streams := YtService.GetVideoStreamFromSearch(items.value, context.ytSelectionsPager.value);
      if streams.None? {
        return false;
      }
      if |streams.value| > 0 {
        nextStreamMapping := BuildNextStreamMapping(streams.value);
      }
      hasCardsBase := true;
      return true;
    }

    /** closeMovieSelectionPicker: hides the panel and marks the pager hidden. */
    method CloseMovieSelectionPicker()
      requires Valid()
      modifies context
      ensures Valid() && !context.selectionPanelEnabled
      ensures context.ytSelectionsPager == Some(old(context.ytSelectionsPager.value).(displayed := false))
      ensures context.ignoreClicks == old(context.ignoreClicks) && context.searchTerm == old(context.searchTerm)
      ensures context.Playback() == old(context.Playback())
    {
      context.selectionPanelEnabled := false;
      context.ytSelectionsPager := Some(context.ytSelectionsPager.value.(displayed := false));
    }

    /** openPanel of the picker: shows the panel and, when asked, rebuilds the page. */
    method OpenPanel(refreshCardBase: bool, karaokeEnabled: bool,
                     searchApi: string -> Option<seq<YtService.SearchItem>>) returns (ok: bool)
      requires Valid()
      modifies this, context
      ensures Valid() && context.selectionPanelEnabled
      ensures context.ytSelectionsPager == Some(old(context.ytSelectionsPager.value).(displayed := true))
      ensures context.ignoreClicks == old(context.ignoreClicks) && context.searchTerm == old(context.searchTerm)
      ensures context.Playback() == old(context.Playback())
      ensures previousSearch == old(previousSearch)
      ensures !refreshCardBase ==> ok && unchanged(this)
      ensures refreshCardBase ==>
                var streams := PageStreams(SearchQuery(context.searchTerm.GetOr("undefined"), karaokeEnabled),
                                           context.ytSelectionsPager.value, searchApi);
                ok == streams.Some? && hasCardsBase == ok
                && nextStreamMapping == MappingAfterPage(old(nextStreamMapping), streams)
    {
      context.ytSelectionsPager := Some(context.ytSelectionsPager.value.(displayed := true));
      context.selectionPanelEnabled := true;
      ok := true;
      if refreshCardBase {
        ok := DisplayPage(karaokeEnabled, searchApi);
      }
    }

    /**
     * displayMovieSelectionPicker: reopens a hidden page that still exists, takes a submitted
     * non-empty `answer` as the search term, and rebuilds the page only for a term that
     * differs from the previous search. `false` when the rebuild throws.
     */
    method DisplayMovieSelectionPicker(karaokeEnabled: bool, answer: Option<string>,
                                       searchApi: string -> Option<seq<YtService.SearchItem>>) returns (ok: bool)
      requires Valid()
      modifies this, context
      ensures Valid()
      ensures context.searchTerm == PromptedTerm(old(context.searchTerm), answer)
      ensures context.ignoreClicks == old(context.ignoreClicks)
      ensures context.Playback() == old(context.Playback())
      ensures context.ytSelectionsPager ==
                Some(old(context.ytSelectionsPager.value).(displayed := context.ytSelectionsPager.value.displayed))
      ensures NewSearch(context.searchTerm, old(previousSearch)) ==>
                var streams := PageStreams(SearchQuery(context.searchTerm.value, karaokeEnabled),
                                           context.ytSelectionsPager.value, searchApi);
                previousSearch == context.searchTerm.value
                && context.selectionPanelEnabled && context.ytSelectionsPager.value.displayed
                && ok == streams.Some? && hasCardsBase == ok
                && nextStreamMapping == MappingAfterPage(old(nextStreamMapping), streams)
      ensures !NewSearch(context.searchTerm, old(previousSearch)) ==>
                ok && previousSearch == old(previousSearch)
                && nextStreamMapping == old(nextStreamMapping) && hasCardsBase == old(hasCardsBase)
                && context.selectionPanelEnabled == (old(context.selectionPanelEnabled) || old(hasCardsBase))
                && context.ytSelectionsPager.value.displayed ==
                     (old(context.ytSelectionsPager.value.displayed)
                      || (old(hasCardsBase) && !old(context.selectionPanelEnabled)))
    {
      ok := true;
      if hasCardsBase && !context.selectionPanelEnabled {
        ok := OpenPanel(false, karaokeEnabled, searchApi);
      }
      if answer.Some? && answer.value != "" {
        context.searchTerm := answer;
      }
      if context.searchTerm.Some? && context.searchTerm.value != "" && context.searchTerm.value != previousSearch {
        previousSearch := context.searchTerm.value;
        if context.selectionPanelEnabled {
          CloseMovieSelectionPicker();
        }
        if !context.selectionPanelEnabled {
          ok := OpenPanel(true, karaokeEnabled, searchApi);
        }
      }
    }

    /** handlePageNextButton, behind the latch and the shown panel; the latch is clear afterwards. */
    method HandlePageNextButton()
      requires Valid()
      modifies context
      ensures Valid() && context.ignoreClicks == old(context.ignoreClicks)
      ensures context.ytSelectionsPager ==
                if !old(context.ignoreClicks) && old(context.selectionPanelEnabled)
                then Some(PageNext(old(context.ytSelectionsPager.value)))
                else old(context.ytSelectionsPager)
      ensures context.selectionPanelEnabled == old(context.selectionPanelEnabled)
      ensures context.searchTerm == old(context.searchTerm) && context.Playback() == old(context.Playback())
    {
      if context.ytSelectionsPager.Some? && !context.ignoreClicks && context.selectionPanelEnabled {
        context.ignoreClicks := true;
        var pager := context.ytSelectionsPager.value;
        pager := pager.(start := pager.start + PageSize);
        pager := pager.(pageSize := PageSize);
        if pager.start > pager.totalCount {
          pager := pager.(start := 0);
        }
        context.ytSelectionsPager := Some(pager);
        context.ignoreClicks := false;
      }
    }

    /** handlePrevPageButton, behind the latch and the shown panel; the latch is clear afterwards. */
    method HandlePrevPageButton()
      requires Valid()
      modifies context
      ensures Valid() && context.ignoreClicks == old(context.ignoreClicks)
      ensures context.ytSelectionsPager ==
                if !old(context.ignoreClicks) && old(context.selectionPanelEnabled)
                then Some(PagePrev(old(context.ytSelectionsPager.value)))
                else old(context.ytSelectionsPager)
      ensures context.selectionPanelEnabled == old(context.selectionPanelEnabled)
      ensures context.searchTerm == old(context.searchTerm) && context.Playback() == old(context.Playback())
    {
      if context.ytSelectionsPager.Some? && !context.ignoreClicks && context.selectionPanelEnabled {
        context.ignoreClicks := true;
        var pager := context.ytSelectionsPager.value;
        pager := pager.(start := pager.start - PageSize);
        pager := pager.(pageSize := PageSize);
        if pager.start < 0 {
          pager := pager.(start := 0);
        }
        context.ytSelectionsPager := Some(pager);
        context.ignoreClicks := false;
      }
    }

    /** handleCloseButton: closes a shown panel unless latched, and clears the latch whenever it runs. */
    method HandleCloseButton()
      requires Valid()
      modifies context
      ensures Valid()
      ensures !old(context.ignoreClicks) && old(context.selectionPanelEnabled) ==>
                !context.selectionPanelEnabled && !context.ignoreClicks
                && context.ytSelectionsPager == Some(old(context.ytSelectionsPager.value).(displayed := false))
      ensures old(context.ignoreClicks) || !old(context.selectionPanelEnabled) ==> unchanged(context)
      ensures context.searchTerm == old(context.searchTerm) && context.Playback() == old(context.Playback())
    {
      if context.ytSelectionsPager.Some? && !context.ignoreClicks && context.selectionPanelEnabled {
        CloseMovieSelectionPicker();
        context.ignoreClicks := false;
      }
    }
  }
}
