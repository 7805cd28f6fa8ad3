/** YouTubeTrendingService of services/youtube_trending_service.py: the
    constructor's key check, the search parameters, and the shaping of the
    search and details responses into view-sorted video records. The data
    API's search and details calls are parameters. */
module Trending {
  import opened Results
  import opened Text

  /** The `id` of a search result. */
  datatype ResourceId = ResourceId(videoId: string)

  /** A search result; its `id` may be missing. */
  datatype SearchItem = SearchItem(id: Option<ResourceId>)

  /** The statistics of a video; `viewCount` may be missing. */
  datatype Statistics = Statistics(viewCount: Option<int>)

  /** A result of the details lookup (`get_video_by_id`). */
  datatype VideoItem = VideoItem(id: string, title: string, publishedAt: string,
                                 statistics: Option<Statistics>)

  /** The dictionary built for each video. */
  datatype VideoRecord = VideoRecord(id: string, title: string, views: int,
                                     publishedAt: string, url: string)

  /** The keyword arguments passed to `api.search`. */
  datatype SearchParams = SearchParams(q: string, searchType: string, order: string,
                                       count: int, parts: seq<string>,
                                       publishedAfter: Option<string>,
                                       regionCode: Option<string>)

  /** What a service call returns, with the id string sent to the details
      lookup, or None when no lookup was made. */
  datatype Shaped = Shaped(videos: seq<VideoRecord>, detailsQuery: Option<string>)

  datatype TrendingError = MissingApiKey | MissingSearchId

  /** A constructed service. */
  datatype TrendingService = TrendingService(apiKey: string)

  /** `get_video_by_id(video_id=...)`: the details items (None for a
      response without items). */
  type DetailsLookup = string -> Option<seq<VideoItem>>

  const WatchUrlPrefix := "https://www.youtube.com/watch?v="

  /** The character the video ids of a details lookup are joined with. */
  const IdSeparator: char := ','

  /** Python truthiness of an optional string. */
  predicate Truthy(s: Option<string>) {
    s.Some? && s.value != ""
  }

  /** `response.items or []`. */
  function ItemsOrEmpty<T>(items: Option<seq<T>>): seq<T> {
    match items
    case Some(xs) => xs
    case None => []
  }

  /** The constructor refuses a missing or empty API key and keeps any other. */
  function NewTrendingService(apiKey: Option<string>): (r: Result<TrendingService, TrendingError>)
    ensures r.Success? <==> Truthy(apiKey)
    ensures r.Success? ==> r.value.apiKey == apiKey.value
    ensures r.Failure? ==> r.error == MissingApiKey
  {
    if Truthy(apiKey) then Success(TrendingService(apiKey.value)) else Failure(MissingApiKey)
  }

  /** The search parameters shared by both queries: a video search for the
      topic, ordered by view count, asking for `topN` snippets. */
  predicate BaseSearch(p: SearchParams, topic: string, topN: int) {
    && p.q == topic && p.searchType == "video" && p.order == "viewCount"
    && p.count == topN && p.parts == ["snippet"]
  }

  /** `region_code` is set exactly when the country code is truthy. */
  predicate RegionFrom(p: SearchParams, countryCode: Option<string>) {
    (Truthy(countryCode) ==> p.regionCode == countryCode) && (!Truthy(countryCode) ==> p.regionCode.None?)
  }

  /** The parameters of `get_trending_videos`, with the publication cut-off
      computed by the caller; `top_n` defaults to 10 and `country_code` to None. */
  function TrendingSearchParams(topic: string, publishedAfter: string, topN: int := 10,
                                countryCode: Option<string> := None): (p: SearchParams)
    ensures BaseSearch(p, topic, topN)
    ensures p.publishedAfter == Some(publishedAfter)
    ensures RegionFrom(p, countryCode)
  {
    SearchParams(topic, "video", "viewCount", topN, ["snippet"], Some(publishedAfter),
                 if Truthy(countryCode) then countryCode else None)
  }

  /** The parameters of `get_viral_all_time`: no publication cut-off;
      `top_n` defaults to 5 and `country_code` to None. */
  function ViralSearchParams(topic: string, topN: int := 5,
                             countryCode: Option<string> := None): (p: SearchParams)
    ensures BaseSearch(p, topic, topN)
    ensures p.publishedAfter.None?
    ensures RegionFrom(p, countryCode)
  {
    SearchParams(topic, "video", "viewCount", topN, ["snippet"], None,
                 if Truthy(countryCode) then countryCode else None)
  }

  /** Called without the optional arguments, a trending search asks for 10
      videos and a viral search for 5, neither restricted to a region. */
  lemma SearchDefaults(topic: string, publishedAfter: string)
    ensures TrendingSearchParams(topic, publishedAfter).count == 10
    ensures TrendingSearchParams(topic, publishedAfter).regionCode.None?
    ensures ViralSearchParams(topic).count == 5
    ensures ViralSearchParams(topic).regionCode.None?
  {
  }

  /** `int(stats.viewCount) if stats and stats.viewCount else 0`: the view
      count when the statistics carry one, else 0. */
  function ViewsOf(v: VideoItem): (n: int)
    ensures (v.statistics.Some? && v.statistics.value.viewCount.Some?) ==> n == v.statistics.value.viewCount.value
    ensures (v.statistics.None? || v.statistics.value.viewCount.None?) ==> n == 0
  {
    match v.statistics
    case Some(Statistics(Some(n))) => n
    case _ => 0
  }

  /** The record built for one details item. */
  function ToRecord(v: VideoItem): (r: VideoRecord)
    ensures r.id == v.id && r.title == v.title && r.publishedAt == v.publishedAt
    ensures r.url == WatchUrlPrefix + v.id
    ensures (v.statistics.Some? && v.statistics.value.viewCount.Some?) ==> r.views == v.statistics.value.viewCount.value
    ensures (v.statistics.None? || v.statistics.value.viewCount.None?) ==> r.views == 0
  {
    VideoRecord(v.id, v.title, ViewsOf(v), v.publishedAt, WatchUrlPrefix + v.id)
  }

  /** The video id a watch URL names, or None for any other URL. */
  function IdFromUrl(url: string): Option<string> {
    if |WatchUrlPrefix| <= |url| && url[..|WatchUrlPrefix|] == WatchUrlPrefix
    then Some(url[|WatchUrlPrefix|..])
    else None
  }

  /** A record's url names the record's own video. */
  lemma UrlNamesVideo(v: VideoItem)
    ensures IdFromUrl(ToRecord(v).url) == Some(ToRecord(v).id)
  {
    var url := WatchUrlPrefix + v.id;
    assert url[..|WatchUrlPrefix|] == WatchUrlPrefix;
    assert url[|WatchUrlPrefix|..] == v.id;
  }

  /** The records of the details items, in response order. */
  function ToRecords(vs: seq<VideoItem>): (rs: seq<VideoRecord>)
    ensures |rs| == |vs|
    ensures forall i :: 0 <= i < |vs| ==> rs[i] == ToRecord(vs[i])
  {
    if vs == [] then [] else [ToRecord(vs[0])] + ToRecords(vs[1..])
  }

  /** Non-increasing by views. */
  predicate SortedByViews(rs: seq<VideoRecord>) {
    forall i, j :: 0 <= i < j < |rs| ==> rs[i].views >= rs[j].views
  }

  /** The records with the given view count, in their order. */
  function WithViews(rs: seq<VideoRecord>, k: int): seq<VideoRecord> {
    if rs == [] then []
    else (if rs[0].views == k then [rs[0]] else []) + WithViews(rs[1..], k)
  }

  /** Places `x` before the first record with no more views than it, so that
      it stays ahead of the records it tied with. */
  function InsertByViews(x: VideoRecord, rs: seq<VideoRecord>): seq<VideoRecord> {
    if rs == [] || rs[0].views <= x.views then [x] + rs
    else [rs[0]] + InsertByViews(x, rs[1..])
  }

  lemma {:induction false} InsertPermutes(x: VideoRecord, rs: seq<VideoRecord>)
    ensures multiset(InsertByViews(x, rs)) == multiset{x} + multiset(rs)
  {
    if rs == [] || rs[0].views <= x.views {
      assert multiset([x] + rs) == multiset{x} + multiset(rs);
    } else {
      var t := InsertByViews(x, rs[1..]);
      InsertPermutes(x, rs[1..]);
      assert rs == [rs[0]] + rs[1..];
      calc {
        multiset(InsertByViews(x, rs));
        multiset([rs[0]] + t);
        multiset{rs[0]} + multiset(t);
        multiset{rs[0]} + (multiset{x} + multiset(rs[1..]));
        multiset{x} + (multiset{rs[0]} + multiset(rs[1..]));
        multiset{x} + multiset(rs);
      }
    }
  }

  /** A record with at least the views of a sorted list's head can go in front. */
  lemma SortedCons(r: VideoRecord, t: seq<VideoRecord>)
    requires SortedByViews(t)
    requires t == [] || t[0].views <= r.views
    ensures SortedByViews([r] + t)
  {
    var s := [r] + t;
    forall i, j | 0 <= i < j < |s|
      ensures s[i].views >= s[j].views
    {
      if i == 0 {
        assert s[j] == t[j - 1];
        assert t[0].views >= t[j - 1].views;
      } else {
        assert s[i] == t[i - 1] && s[j] == t[j - 1];
      }
    }
  }

  lemma {:induction false} InsertSorted(x: VideoRecord, rs: seq<VideoRecord>)
    requires SortedByViews(rs)
    ensures SortedByViews(InsertByViews(x, rs))
  {
    if rs == [] || rs[0].views <= x.views {
      SortedCons(x, rs);
    } else {
      var tail := rs[1..];
      assert SortedByViews(tail) by {
        forall i, j | 0 <= i < j < |tail|
          ensures tail[i].views >= tail[j].views
        {
          assert tail[i] == rs[i + 1] && tail[j] == rs[j + 1];
        }
      }
      InsertSorted(x, tail);
      var t := InsertByViews(x, tail);
      assert t[0] == x || t[0] == tail[0];
      SortedCons(rs[0], t);
    }
  }

  /** The view filter of a list with a record in front. */
  lemma WithViewsCons(r: VideoRecord, t: seq<VideoRecord>, k: int)
    ensures WithViews([r] + t, k) == (if r.views == k then [r] else []) + WithViews(t, k)
  {
    assert ([r] + t)[0] == r;
    assert ([r] + t)[1..] == t;
  }

  lemma {:induction false} InsertStable(x: VideoRecord, rs: seq<VideoRecord>, k: int)
    ensures WithViews(InsertByViews(x, rs), k)
         == (if x.views == k then [x] else []) + WithViews(rs, k)
  {
    var hx := if x.views == k then [x] else [];
    if rs == [] || rs[0].views <= x.views {
      WithViewsCons(x, rs, k);
    } else {
      var h0 := if rs[0].views == k then [rs[0]] else [];
      var t := InsertByViews(x, rs[1..]);
      InsertStable(x, rs[1..], k);
      WithViewsCons(rs[0], t, k);
      WithViewsCons(rs[0], rs[1..], k);
      assert rs == [rs[0]] + rs[1..];
      // rs[0] has more views than x, so at most one of the two heads is kept
      assert h0 == [] || hx == [];
      calc {
        WithViews(InsertByViews(x, rs), k);
        h0 + WithViews(t, k);
        h0 + (hx + WithViews(rs[1..], k));
        hx + (h0 + WithViews(rs[1..], k));
        hx + WithViews(rs, k);
      }
    }
  }

  /** `list.sort(key=lambda x: x["views"], reverse=True)`: a stable sort,
      most viewed first. The result is a permutation of the input, sorted by
      views, and records with equal views keep their relative order. */
  function SortByViews(rs: seq<VideoRecord>): (r: seq<VideoRecord>)
    ensures multiset(r) == multiset(rs)
    ensures SortedByViews(r)
    ensures forall k :: WithViews(r, k) == WithViews(rs, k)
  {
    if rs == [] then []
    else
      var t := SortByViews(rs[1..]);
      InsertPermutes(rs[0], t);
      InsertSorted(rs[0], t);
      assert rs == [rs[0]] + rs[1..];
      forall k ensures WithViews(InsertByViews(rs[0], t), k) == WithViews(rs, k) {
        InsertStable(rs[0], t, k);
        WithViewsCons(rs[0], rs[1..], k);
      }
      InsertByViews(rs[0], t)
  }

  /** A record kept by the view filter is a record of the input with those views. */
  lemma {:induction false} WithViewsMember(rs: seq<VideoRecord>, k: int, x: VideoRecord)
    requires x in WithViews(rs, k)
    ensures x in rs && x.views == k
  {
    if rs != [] && !(rs[0].views == k && x == rs[0]) {
      WithViewsMember(rs[1..], k, x);
    }
  }

  /** The view filter of a non-empty list at its first record's views keeps
      that record. */
  lemma FirstHasViews(rs: seq<VideoRecord>)
    requires rs != []
    ensures WithViews(rs, rs[0].views) != []
  {
  }

  /** A sorted list is pinned down by its per-view-count subsequences: two
      lists sorted by views that agree on every such subsequence are equal.
      So the stable descending sort is the only result with the properties
      above. */
  lemma {:induction false} SortedStableUnique(a: seq<VideoRecord>, b: seq<VideoRecord>)
    requires SortedByViews(a) && SortedByViews(b)
    requires forall k :: WithViews(a, k) == WithViews(b, k)
    ensures a == b
    decreases |a| + |b|
  {
    if a == [] || b == [] {
      if a != [] {
        FirstHasViews(a);
      } else if b != [] {
        FirstHasViews(b);
      }
    } else {
      var m := a[0].views;
      var m' := b[0].views;
      assert WithViews(a, m)[0] == a[0];
      assert WithViews(b, m')[0] == b[0];
      if m != m' {
        if m > m' {
          var x := WithViews(b, m)[0];
          assert x in WithViews(b, m);
          WithViewsMember(b, m, x);
        } else {
          var x := WithViews(a, m')[0];
          assert x in WithViews(a, m');
          WithViewsMember(a, m', x);
        }
        assert false;
      }
      assert a[0] == b[0];
      forall k ensures WithViews(a[1..], k) == WithViews(b[1..], k) {
        var head := if m == k then [a[0]] else [];
        assert WithViews(a, k) == head + WithViews(a[1..], k);
        assert WithViews(b, k) == head + WithViews(b[1..], k);
        assert WithViews(a, k) == WithViews(b, k);
        assert WithViews(a[1..], k) == (head + WithViews(a[1..], k))[|head|..];
      }
      SortedStableUnique(a[1..], b[1..]);
      assert a == [a[0]] + a[1..] && b == [b[0]] + b[1..];
    }
  }

  /** Any list sorted by views that keeps the input's order among records
      with equal views is exactly what the sort returns. */
  lemma SortCharacterized(rs: seq<VideoRecord>, out: seq<VideoRecord>)
    requires SortedByViews(out)
    requires forall k :: WithViews(out, k) == WithViews(rs, k)
    ensures out == SortByViews(rs)
  {
    SortedStableUnique(out, SortByViews(rs));
  }

  /** The record list a service call returns for the given details items. */
  function ShapeDetails(details: seq<VideoItem>): (rs: seq<VideoRecord>)
    ensures SortedByViews(rs)
    ensures multiset(rs) == multiset(ToRecords(details))
    ensures forall k :: WithViews(rs, k) == WithViews(ToRecords(details), k)
  {
    SortByViews(ToRecords(details))
  }

  /** `[item.id.videoId for item in items if getattr(item, "id", None)]`. */
  function PresentIds(items: seq<SearchItem>): (ids: seq<string>)
    ensures |ids| <= |items|
    ensures ids == [] <==> forall i :: 0 <= i < |items| ==> items[i].id.None?
    ensures forall x :: x in ids <==> exists i :: 0 <= i < |items| && items[i].id == Some(ResourceId(x))
  {
    if items == [] then []
    else
      var rest := PresentIds(items[1..]);
      assert forall i :: 1 <= i < |items| ==> items[i] == items[1..][i - 1];
      match items[0].id
      case Some(rid) => [rid.videoId] + rest
      case None => rest
  }

  /** The ids come out in item order, once per item that has one: adding an
      item at the end adds its id, if any, at the end. */
  lemma {:induction false} PresentIdsSnoc(items: seq<SearchItem>, it: SearchItem)
    ensures PresentIds(items + [it])
         == PresentIds(items) + (if it.id.Some? then [it.id.value.videoId] else [])
  {
    if items == [] {
      assert [] + [it] == [it];
      assert [it][1..] == [];
    } else {
      assert (items + [it])[0] == items[0];
      assert (items + [it])[1..] == items[1..] + [it];
      PresentIdsSnoc(items[1..], it);
    }
  }

  /** `[it.id.videoId for it in items]`, where an item without an id makes
      the attribute access fail. */
  function AllIds(items: seq<SearchItem>): (r: Result<seq<string>, TrendingError>)
    ensures r.Success? <==> forall i :: 0 <= i < |items| ==> items[i].id.Some?
    ensures r.Failure? ==> r.error == MissingSearchId
    ensures r.Success? ==> |r.value| == |items|
    ensures r.Success? ==> forall i :: 0 <= i < |items| ==> r.value[i] == items[i].id.value.videoId
  {
    if items == [] then Success([])
    else
      match items[0].id
      case None => Failure(MissingSearchId)
      case Some(rid) =>
        match AllIds(items[1..])
        case Failure(e) => Failure(e)
        case Success(rest) => Success([rid.videoId] + rest)
  }

  /** From the video ids on: no ids means no lookup and no videos;
      otherwise one lookup with the comma-joined ids, shaped and sorted. */
  function ShapeFromIds(ids: seq<string>, details: DetailsLookup): (r: Shaped)
    ensures ids == [] <==> r.detailsQuery.None?
    ensures ids == [] ==> r.videos == []
    ensures ids != [] ==> r.detailsQuery == Some(Join(",", ids))
    ensures ids != [] ==> r.videos == ShapeDetails(ItemsOrEmpty(details(Join(",", ids))))
  {
    if ids == [] then Shaped([], None)
    else
      var query := Join(",", ids);
      Shaped(ShapeDetails(ItemsOrEmpty(details(query))), Some(query))
  }

  /** The comma-joined query names exactly the ids it was built from, in
      order, when no id contains a comma. */
  lemma {:induction false} DetailsQuerySplitsBack(ids: seq<string>)
    requires |ids| >= 1
    requires forall i :: 0 <= i < |ids| ==> IdSeparator !in ids[i]
    ensures SplitOn(Join([IdSeparator], ids), IdSeparator) == ids
  {
    SplitJoin(ids, IdSeparator);
  }

  /** The result shaping of `get_trending_videos`: search items without an
      id are skipped. */
  function ShapeTrending(searchItems: Option<seq<SearchItem>>, details: DetailsLookup): (r: Shaped)
    ensures r.detailsQuery.None? <==> forall i :: 0 <= i < |ItemsOrEmpty(searchItems)| ==> ItemsOrEmpty(searchItems)[i].id.None?
    ensures r.detailsQuery.None? ==> r.videos == []
    // the lookup names the ids of the items that have one, in order
    ensures r.detailsQuery.Some? ==> r.detailsQuery.value == Join(",", PresentIds(ItemsOrEmpty(searchItems)))
    ensures r.detailsQuery.Some? ==>
      && SortedByViews(r.videos)
      && multiset(r.videos) == multiset(ToRecords(ItemsOrEmpty(details(r.detailsQuery.value))))
      && forall k :: WithViews(r.videos, k) == WithViews(ToRecords(ItemsOrEmpty(details(r.detailsQuery.value))), k)
  {
    ShapeFromIds(PresentIds(ItemsOrEmpty(searchItems)), details)
  }

  /** The result shaping of `get_viral_all_time`: every search item's id is
      taken, so one without an id is an error. */
  function ShapeViral(searchItems: Option<seq<SearchItem>>, details: DetailsLookup): (r: Result<Shaped, TrendingError>)
    ensures r.Failure? <==> exists i :: 0 <= i < |ItemsOrEmpty(searchItems)| && ItemsOrEmpty(searchItems)[i].id.None?
    ensures r.Success? ==> (r.value.detailsQuery.None? <==> ItemsOrEmpty(searchItems) == [])
    ensures r.Success? && r.value.detailsQuery.None? ==> r.value.videos == []
    // the lookup names every item's id, in order
    ensures r.Success? ==> AllIds(ItemsOrEmpty(searchItems)).Success?
    ensures r.Success? && r.value.detailsQuery.Some? ==>
      r.value.detailsQuery.value == Join(",", AllIds(ItemsOrEmpty(searchItems)).value)
    ensures r.Success? && r.value.detailsQuery.Some? ==>
      && SortedByViews(r.value.videos)
      && multiset(r.value.videos) == multiset(ToRecords(ItemsOrEmpty(details(r.value.detailsQuery.value))))
      && forall k :: WithViews(r.value.videos, k) == WithViews(ToRecords(ItemsOrEmpty(details(r.value.detailsQuery.value))), k)
  {
    match AllIds(ItemsOrEmpty(searchItems))
    case Failure(e) => Failure(e)
    case Success(ids) => Success(ShapeFromIds(ids, details))
  }
}
