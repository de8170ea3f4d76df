/**
 * The resolver and search adapter (src/services/yt-service.ts). The network libraries are
 * inputs: `ytdl.getInfo` is a function from an id to an `InfoOutcome`, the search library
 * a list of raw result items. The short-lived cache is a map without expiry.
 */
module YtService {
  import opened Wrappers
  import opened Models
  import TimeFormat

  /** A stream format offered for a video. */
  datatype Format = Format(itag: int, url: string, isHLS: bool)

  /**
   * `videoDetails` of an info record. `thumbnail` is `None` when the thumbnail object is
   * missing (destructuring it throws); otherwise the urls of its thumbnails.
   */
  datatype VideoDetails = VideoDetails(title: Option<string>, lengthSeconds: nat, thumbnail: Option<seq<string>>)

  /** What `ytdl.getInfo` does: it throws, or gives an info record. */
  datatype InfoOutcome = InfoThrows | Info(videoDetails: Option<VideoDetails>, formats: seq<Format>)

  /** The duration given to live (HLS) streams. */
  const LiveDuration := "23:59:59"
  const OnClickUri := "<onClick>"

  function CacheKey(id: string): string {
    "yt-" + id
  }

  lemma CacheKeyInjective(a: string, b: string)
    requires CacheKey(a) == CacheKey(b)
    ensures a == b
  {
    assert a == CacheKey(a)[3..] && b == CacheKey(b)[3..];
  }

  /** `formats.find(p)`, as the index of the first format satisfying `p`. */
  function FirstWhere(formats: seq<Format>, p: Format -> bool): (r: Option<nat>)
    ensures r.Some? ==> r.value < |formats| && p(formats[r.value])
    ensures r.Some? ==> forall j :: 0 <= j < r.value ==> !p(formats[j])
    ensures r.None? <==> forall j :: 0 <= j < |formats| ==> !p(formats[j])
  {
    if |formats| == 0 then None
    else if p(formats[0]) then Some(0)
    else
      var rest := FirstWhere(formats[1..], p);
      assert forall j :: 1 <= j < |formats| ==> formats[j] == formats[1..][j - 1];
      if rest.Some? then Some(rest.value + 1) else None
  }

  predicate HasItag(formats: seq<Format>, itag: int) {
    exists j :: 0 <= j < |formats| && formats[j].itag == itag
  }

  predicate HasHls(formats: seq<Format>) {
    exists j :: 0 <= j < |formats| && formats[j].isHLS
  }

  /** The url of the first format with tag `itag`. */
  function FirstItagUrl(formats: seq<Format>, itag: int): string
    requires HasItag(formats, itag)
  {
    formats[FirstWhere(formats, (f: Format) => f.itag == itag).value].url
  }

  function FirstHlsUrl(formats: seq<Format>): string
    requires HasHls(formats)
  {
    formats[FirstWhere(formats, (f: Format) => f.isHLS).value].url
  }

  /**
   * The descriptor built from `videoDetails` (yt-service.ts:30-53): itag 22 is preferred
   * over 18, either giving a `&.mp4` uri; otherwise the first HLS format makes a live item
   * with the sentinel duration; with neither the uri stays "<onClick>".
   */
  function Describe(id: string, details: VideoDetails, formats: seq<Format>): (d: VideoStream)
    requires details.thumbnail.Some?
    ensures d.id == id && d.title == details.title && d.author.None?
    ensures d.photoUrl == if details.thumbnail.value == [] then None else Some(details.thumbnail.value[0])
    ensures HasItag(formats, 22) ==>
              d.uri == Some(FirstItagUrl(formats, 22) + "&.mp4") && !d.live
    ensures !HasItag(formats, 22) && HasItag(formats, 18) ==>
              d.uri == Some(FirstItagUrl(formats, 18) + "&.mp4") && !d.live
    ensures !HasItag(formats, 22) && !HasItag(formats, 18) && HasHls(formats) ==>
              d.uri == Some(FirstHlsUrl(formats)) && d.live && d.duration == Some(LiveDuration)
    ensures !HasItag(formats, 22) && !HasItag(formats, 18) && !HasHls(formats) ==>
              d.uri == Some(OnClickUri) && !d.live
    ensures !d.live ==> d.duration == Some(TimeFormat.SecondsToString(details.lengthSeconds))
  {
    var thumbs := details.thumbnail.value;
    var photo := if thumbs == [] then None else Some(thumbs[0]);
    var base := VideoStream(id, Some(TimeFormat.SecondsToString(details.lengthSeconds)),
                            Some(OnClickUri), photo, details.title, None, false);
    var format := FirstWhere(formats, (f: Format) => f.itag == 22);
    var format' := if format.Some? then format else FirstWhere(formats, (f: Format) => f.itag == 18);
    if format'.None? then
      var hls := FirstWhere(formats, (f: Format) => f.isHLS);
      if hls.Some? then base.(uri := Some(formats[hls.value].url), live := true, duration := Some(LiveDuration))
      else base
    else
      base.(uri := Some(formats[format'.value].url + "&.mp4"))
  }

  /** Every cached descriptor sits under the key of its own id. */
  ghost predicate CacheCoherent(cache: map<string, VideoStream>) {
    forall k :: k in cache ==> k == CacheKey(cache[k].id)
  }

  lemma CachedUnderOwnId(cache: map<string, VideoStream>, id: string)
    requires CacheKey(id) in cache
    ensures CacheCoherent(cache) ==> cache[CacheKey(id)].id == id
  {
    if CacheCoherent(cache) {
      CacheKeyInjective(id, cache[CacheKey(id)].id);
    }
  }

  /** The cache after a lookup and the descriptor returned (`None` is the source's null). */
  datatype Resolution = Resolution(cache: map<string, VideoStream>, result: Option<VideoStream>)

  /** Whether an info outcome yields a descriptor: no throw, `videoDetails` and a thumbnail object present. */
  predicate Describable(info: InfoOutcome) {
    info.Info? && info.videoDetails.Some? && info.videoDetails.value.thumbnail.Some?
  }

  /**
   * getVideoStreamFromYT (yt-service.ts:10-62): a cache hit is returned without consulting
   * the resolver; otherwise a descriptor built from `videoDetails` is cached under `yt-<id>`
   * and returned; a missing `videoDetails` or a throw returns null and caches nothing.
   */
  function Resolve(cache: map<string, VideoStream>, id: string, lookup: string -> InfoOutcome): (r: Resolution)
    ensures CacheKey(id) in cache ==> r == Resolution(cache, Some(cache[CacheKey(id)]))
    ensures CacheKey(id) !in cache ==> (r.result.Some? <==> Describable(lookup(id)))
    ensures CacheKey(id) !in cache && r.result.Some? ==>
              r.result.value == Describe(id, lookup(id).videoDetails.value, lookup(id).formats)
              && r.cache == cache[CacheKey(id) := r.result.value]
    ensures r.result.None? ==> r.cache == cache
    ensures CacheCoherent(cache) ==>
              CacheCoherent(r.cache) && (r.result.Some? ==> r.result.value.id == id)
  {
    var key := CacheKey(id);
    if key in cache then
      CachedUnderOwnId(cache, id);
      Resolution(cache, Some(cache[key]))
    else
      var info := lookup(id);
      if Describable(info) then
        var d := Describe(id, info.videoDetails.value, info.formats);
        Resolution(cache[key := d], Some(d))
      else Resolution(cache, None)
  }

  /** The module-level cache of the resolver. */
  class VideoService {
    var cache: map<string, VideoStream>

    constructor ()
      ensures cache == map[]
    {
      cache := map[];
    }

    method GetVideoStreamFromYT(id: string, lookup: string -> InfoOutcome) returns (r: Option<VideoStream>)
      modifies this
      ensures Resolution(cache, r) == Resolve(old(cache), id, lookup)
    {
      var cacheKey := CacheKey(id);
      if cacheKey in cache {
        return Some(cache[cacheKey]);
      }
      var info := lookup(id);
      if info.Info? && info.videoDetails.Some? && info.videoDetails.value.thumbnail.Some? {
        var ytVideoStream := Describe(id, info.videoDetails.value, info.formats);
        cache := cache[cacheKey := ytVideoStream];
        return Some(ytVideoStream);
      }
      return None;
    }
  }

  // ---------------------------------------------------------------- search

  /**
   * A raw search result. `thumbnails` and `bylineRuns` are `None` when the optional chain
   * stops early; an empty list makes `[0].url` / `[0].text` throw.
   */
  datatype SearchItem = SearchItem(
    id: string,
    itemType: string,
    title: Option<string>,
    lengthText: Option<string>,
    thumbnails: Option<seq<string>>,
    bylineRuns: Option<seq<string>>)

  /** The descriptor for one video result, or `None` when building it throws. */
  function ItemStream(item: SearchItem): (r: Option<VideoStream>)
    ensures r.Some? ==> r.value.id == item.id && r.value.duration == item.lengthText
    ensures r.None? <==> item.thumbnails == Some([]) || item.bylineRuns == Some([])
    ensures r.Some? ==> r.value.author.Some? && r.value.author.value != ""
    ensures r.Some? && (item.bylineRuns.None? || item.bylineRuns.value[0] == "") ==>
              r.value.author == Some("unlisted")
    ensures r.Some? && item.bylineRuns.Some? && item.bylineRuns.value[0] != "" ==>
              r.value.author == Some(item.bylineRuns.value[0])
    ensures r.Some? ==> r.value.title == item.title && r.value.uri == Some(OnClickUri) && !r.value.live
    ensures r.Some? ==> r.value.photoUrl == if item.thumbnails.None? then None else Some(item.thumbnails.value[0])
  {
    if item.thumbnails == Some([]) || item.bylineRuns == Some([]) then None
    else
      var photo := if item.thumbnails.None? then None else Some(item.thumbnails.value[0]);
      var byline := if item.bylineRuns.None? then "" else item.bylineRuns.value[0];
      var author := if byline == "" then "unlisted" else byline;
      Some(VideoStream(item.id, item.lengthText, Some(OnClickUri), photo, item.title, Some(author), false))
  }

  /** The results whose type is "video", in input order. */
  function Videos(items: seq<SearchItem>): (r: seq<SearchItem>)
    ensures |r| <= |items|
  {
    if |items| == 0 then []
    else if items[0].itemType == "video" then [items[0]] + Videos(items[1..])
    else Videos(items[1..])
  }

  /** Every kept result is a video taken from the input, and every video of the input is kept. */
  lemma {:induction false} VideosFiltered(items: seq<SearchItem>)
    ensures forall i :: 0 <= i < |Videos(items)| ==> Videos(items)[i].itemType == "video" && Videos(items)[i] in items
    ensures forall x :: x in items && x.itemType == "video" ==> x in Videos(items)
  {
    if |items| > 0 {
      VideosFiltered(items[1..]);
      assert forall x :: x in items[1..] ==> x in items;
      assert forall x :: x in items ==> x == items[0] || x in items[1..];
    }
  }

  lemma {:induction false} VideosAppend(a: seq<SearchItem>, b: seq<SearchItem>)
    ensures Videos(a + b) == Videos(a) + Videos(b)
  {
    if |a| > 0 {
      assert (a + b)[1..] == a[1..] + b;
      VideosAppend(a[1..], b);
    } else {
      assert a + b == b;
    }
  }

  /** The descriptors of `items`, or `None` when one of them throws. */
  function StreamsOf(items: seq<SearchItem>): (r: Option<seq<VideoStream>>)
    ensures r.Some? ==> |r.value| == |items|
  {
    if |items| == 0 then Some([])
    else
      var head := ItemStream(items[0]);
      var rest := StreamsOf(items[1..]);
      if head.Some? && rest.Some? then Some([head.value] + rest.value) else None
  }

  /** `StreamsOf` succeeds exactly when every item does, and then lists their descriptors. */
  lemma {:induction false} StreamsOfElements(items: seq<SearchItem>)
    ensures StreamsOf(items).Some? ==>
              forall i :: 0 <= i < |items| ==> ItemStream(items[i]) == Some(StreamsOf(items).value[i])
    ensures StreamsOf(items).None? ==> exists i :: 0 <= i < |items| && ItemStream(items[i]).None?
  {
    if |items| > 0 {
      StreamsOfElements(items[1..]);
      assert forall i :: 1 <= i < |items| ==> items[i] == items[1..][i - 1];
      if StreamsOf(items[1..]).None? && ItemStream(items[0]).Some? {
        var i :| 0 <= i < |items[1..]| && ItemStream(items[1..][i]).None?;
        assert ItemStream(items[i + 1]).None?;
      }
    }
  }

  lemma {:induction false} StreamsOfAppend(a: seq<SearchItem>, b: seq<SearchItem>)
    ensures StreamsOf(a + b) ==
            if StreamsOf(a).Some? && StreamsOf(b).Some? then Some(StreamsOf(a).value + StreamsOf(b).value)
            else None
  {
    if |a| == 0 {
      assert a + b == b;
      if StreamsOf(b).Some? {
        assert [] + StreamsOf(b).value == StreamsOf(b).value;
      }
    } else {
      assert (a + b)[0] == a[0];
      assert (a + b)[1..] == a[1..] + b;
      StreamsOfAppend(a[1..], b);
      var h := ItemStream(a[0]);
      var t, u := StreamsOf(a[1..]), StreamsOf(b);
      if h.Some? && t.Some? && u.Some? {
        assert [h.value] + (t.value + u.value) == ([h.value] + t.value) + u.value;
      }
    }
  }

  lemma StreamsOfSingle(item: SearchItem)
    ensures StreamsOf([item]) == if ItemStream(item).Some? then Some([ItemStream(item).value]) else None
  {
    assert [item][1..] == [];
    assert StreamsOf([]) == Some([]);
    if ItemStream(item).Some? {
      assert [ItemStream(item).value] + [] == [ItemStream(item).value];
    }
  }

  /** How many results a search keeps: it stops once the count reaches `totalCount`, after at least one. */
  function SearchLimit(totalCount: int): (n: nat)
    ensures n >= 1 && (totalCount >= 1 ==> n == totalCount)
  {
    if totalCount >= 1 then totalCount else 1
  }

  /**
   * getVideoStreamFromSearch (yt-service.ts:72-98), by reference: the first `SearchLimit`
   * video results in input order, each turned into a descriptor, or `None` when building
   * one of those throws.
   */
  function SearchResults(items: seq<SearchItem>, totalCount: int): (r: Option<seq<VideoStream>>)
    ensures r.Some? ==> |r.value| <= SearchLimit(totalCount) && |r.value| <= |Videos(items)|
  {
    var vs := Videos(items);
    var n := if |vs| <= SearchLimit(totalCount) then |vs| else SearchLimit(totalCount);
    StreamsOf(vs[..n])
  }

  /**
   * The search result lists, in order, the descriptors of the first videos; it is short of
   * the limit only when the videos run out, and it fails exactly when one of those throws.
   */
  lemma SearchResultsMeaning(items: seq<SearchItem>, totalCount: int)
    ensures var r := SearchResults(items, totalCount);
            var n := if |Videos(items)| <= SearchLimit(totalCount) then |Videos(items)| else SearchLimit(totalCount);
            (r.Some? ==> |r.value| == n && forall i :: 0 <= i < n ==> ItemStream(Videos(items)[i]) == Some(r.value[i]))
            && (r.None? <==> exists i :: 0 <= i < n && ItemStream(Videos(items)[i]).None?)
  {
    var vs := Videos(items);
    var n := if |vs| <= SearchLimit(totalCount) then |vs| else SearchLimit(totalCount);
    StreamsOfElements(vs[..n]);
    assert forall i :: 0 <= i < n ==> vs[..n][i] == vs[i];
  }

  /** The videos among the first `k` results form a prefix of all videos. */
  lemma VideosPrefix(items: seq<SearchItem>, k: nat)
    requires k <= |items|
    ensures |Videos(items[..k])| <= |Videos(items)|
    ensures Videos(items)[..|Videos(items[..k])|] == Videos(items[..k])
  {
    assert items == items[..k] + items[k..];
    VideosAppend(items[..k], items[k..]);
  }

  /** Once the first `k` results hold `SearchLimit` videos, the later ones do not matter. */
  lemma SearchFull(items: seq<SearchItem>, k: nat, totalCount: int)
    requires k <= |items| && |Videos(items[..k])| == SearchLimit(totalCount)
    ensures SearchResults(items, totalCount) == StreamsOf(Videos(items[..k]))
  {
    VideosPrefix(items, k);
  }

  /** A throw among the videos of the first `k` results, under the limit, fails the search. */
  lemma SearchThrows(items: seq<SearchItem>, k: nat, totalCount: int)
    requires k <= |items| && |Videos(items[..k])| <= SearchLimit(totalCount)
    requires StreamsOf(Videos(items[..k])).None?
    ensures SearchResults(items, totalCount).None?
  {
    VideosPrefix(items, k);
    var vs := Videos(items);
    assert vs[..|Videos(items[..k])|] == Videos(items[..k]);
    var m := |Videos(items[..k])|;
    var n := if |vs| <= SearchLimit(totalCount) then |vs| else SearchLimit(totalCount);
    assert vs[..n] == vs[..m] + vs[m..n];
    StreamsOfAppend(vs[..m], vs[m..n]);
  }

  /** With fewer videos than the limit, the search keeps all of them. */
  lemma SearchExhausted(items: seq<SearchItem>, totalCount: int)
    requires |Videos(items)| < SearchLimit(totalCount)
    ensures SearchResults(items, totalCount) == StreamsOf(Videos(items))
  {
    assert Videos(items)[..|Videos(items)|] == Videos(items);
  }

  /** One result more: a non-video leaves the videos as they were, a video is appended and built. */
  lemma SearchStep(items: seq<SearchItem>, i: nat, vidStreams: seq<VideoStream>)
    requires i < |items| && StreamsOf(Videos(items[..i])) == Some(vidStreams)
    ensures items[i].itemType != "video" ==> StreamsOf(Videos(items[..i + 1])) == Some(vidStreams)
    ensures items[i].itemType == "video" ==> |Videos(items[..i + 1])| == |vidStreams| + 1
    ensures items[i].itemType == "video" && ItemStream(items[i]).Some? ==>
              StreamsOf(Videos(items[..i + 1])) == Some(vidStreams + [ItemStream(items[i]).value])
    ensures items[i].itemType == "video" && ItemStream(items[i]).None? ==> StreamsOf(Videos(items[..i + 1])).None?
  {
    var item := items[i];
    assert items[..i + 1] == items[..i] + [item];
    VideosAppend(items[..i], [item]);
    assert [item][1..] == [];
    if item.itemType == "video" {
      assert Videos([item]) == [item];
      StreamsOfAppend(Videos(items[..i]), [item]);
      StreamsOfSingle(item);
    } else {
      assert Videos([item]) == [];
      assert Videos(items[..i]) + [] == Videos(items[..i]);
    }
  }

  /** The search loop: skips non-video results, pushes descriptors, breaks at `totalCount`. */
  method GetVideoStreamFromSearch(items: seq<SearchItem>, pager: Pager) returns (r: Option<seq<VideoStream>>)
    ensures r == SearchResults(items, pager.totalCount)
  {
    var limit := SearchLimit(pager.totalCount);
    var vidStreams: seq<VideoStream> := [];
    var i := 0;
    while i < |items|
      invariant 0 <= i <= |items|
      invariant |Videos(items[..i])| < limit
      invariant StreamsOf(Videos(items[..i])) == Some(vidStreams)
    {
      var item := items[i];
      SearchStep(items, i, vidStreams);
      if item.itemType == "video" {
        var vidStream := ItemStream(item);
        if vidStream.None? {
          SearchThrows(items, i + 1, pager.totalCount);
          return None;
        }
        vidStreams := vidStreams + [vidStream.value];
        if |vidStreams| >= pager.totalCount {
          SearchFull(items, i + 1, pager.totalCount);
          return Some(vidStreams);
        }
      }
      i := i + 1;
    }
    assert items[..i] == items;
    SearchExhausted(items, pager.totalCount);
    return Some(vidStreams);
  }
}
