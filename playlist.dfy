/** `process_playlist`: list a playlist's videos (from the playlist cache,
    or from the extractor, whose listing is then cached), keep the first
    `limit` of them, fetch the subtitles of every eligible video (phase 1),
    then give each a summary (phase 2), and return the records keyed by
    their indexed URLs. */
module Playlist {
  import opened Common
  import opened Text
  import opened Urls
  import opened Cache
  import opened CoreCache
  import opened VideoIds
  import opened Videos

  // ---------------------------------------------------------------------
  // Listing the playlist

  /** One entry of the extractor's flat playlist listing; a field is `None`
      when the entry has no such key. */
  datatype Entry = Entry(id: Option<string>, title: Option<string>, duration: Option<int>)

  /** What `extract_info` gives: an exception, an info without `entries`,
      or the entries (an entry may be null). */
  datatype Extraction = ExtractFailed | NoEntries | Extracted(entries: seq<Option<Entry>>)

  /** Is the entry present, with a non-empty ID? */
  predicate HasId(entry: Option<Entry>) {
    entry.Some? && Truthy(entry.value.id)
  }

  /** The video an entry with an ID lists: its watch URL, its title or
      "Unknown Title", its duration or 0. */
  function VideoOf(entry: Entry): VideoInfo
    requires Truthy(entry.id)
  {
    VideoInfo(WatchUrl(entry.id.value),
              if entry.title.Some? then entry.title.value else "Unknown Title",
              if entry.duration.Some? then entry.duration.value else 0)
  }

  /** The videos of a listing: one per entry with an ID, in order. */
  function ListedVideos(entries: seq<Option<Entry>>): seq<VideoInfo>
    decreases |entries|
  {
    if entries == [] then []
    else
      var last := entries[|entries| - 1];
      ListedVideos(entries[..|entries| - 1]) + (if HasId(last) then [VideoOf(last.value)] else [])
  }

  /** The loop over the extracted entries. */
  method CollectVideos(entries: seq<Option<Entry>>) returns (videos: seq<VideoInfo>)
    ensures videos == ListedVideos(entries)
  {
    videos := [];
    for i := 0 to |entries|
      invariant videos == ListedVideos(entries[..i])
    {
      assert entries[..i + 1][..i] == entries[..i];
      var entry := entries[i];
      if entry.Some? {
        var id := entry.value.id;
        if id.Some? && id.value != "" {
          var title := if entry.value.title.Some? then entry.value.title.value else "Unknown Title";
          var duration := if entry.value.duration.Some? then entry.value.duration.value else 0;
          videos := videos + [VideoInfo(WatchUrl(id.value), title, duration)];
        }
      }
    }
    assert entries[..|entries|] == entries;
  }

  /** A video is listed exactly when some entry with an ID describes it;
      entries without an ID (or null entries) are dropped. */
  lemma {:induction false} ListedExactly(entries: seq<Option<Entry>>)
    ensures |ListedVideos(entries)| <= |entries|
    ensures forall v :: v in ListedVideos(entries) <==>
      exists k :: 0 <= k < |entries| && HasId(entries[k]) && v == VideoOf(entries[k].value)
    decreases |entries|
  {
    if entries != [] {
      var init := entries[..|entries| - 1];
      var last := entries[|entries| - 1];
      ListedExactly(init);
      assert ListedVideos(entries) == ListedVideos(init) + (if HasId(last) then [VideoOf(last.value)] else []);
      forall v ensures v in ListedVideos(entries) <==>
        exists k :: 0 <= k < |entries| && HasId(entries[k]) && v == VideoOf(entries[k].value)
      {
        if v in ListedVideos(init) {
          var k :| 0 <= k < |init| && HasId(init[k]) && v == VideoOf(init[k].value);
          assert entries[k] == init[k];
        }
        if exists k :: 0 <= k < |entries| && HasId(entries[k]) && v == VideoOf(entries[k].value) {
          var k :| 0 <= k < |entries| && HasId(entries[k]) && v == VideoOf(entries[k].value);
          if k < |init| {
            assert init[k] == entries[k];
          }
        }
      }
    }
  }

  /** Listing keeps the order of the entries: the listing of two runs of
      entries is the listing of the first followed by that of the second. */
  lemma {:induction false} ListedAppend(a: seq<Option<Entry>>, b: seq<Option<Entry>>)
    ensures ListedVideos(a + b) == ListedVideos(a) + ListedVideos(b)
    decreases |b|
  {
    if b != [] {
      var b' := b[..|b| - 1];
      assert (a + b)[..|a + b| - 1] == a + b';
      var last := b[|b| - 1];
      assert (a + b)[|a + b| - 1] == last;
      var tail := if HasId(last) then [VideoOf(last.value)] else [];
      assert ListedVideos(a + b) == ListedVideos(a + b') + tail;
      assert ListedVideos(b) == ListedVideos(b') + tail;
      ListedAppend(a, b');
      assert ListedVideos(a + b) == ListedVideos(a) + (ListedVideos(b') + tail);
    } else {
      assert a + b == a;
    }
  }

  /** The listed URL of an entry whose ID is plain leads back to that ID. */
  lemma ListedVideoId(entry: Entry)
    requires entry.id.Some? && IsPlainId(entry.id.value)
    ensures ExtractVideoId(VideoOf(entry).url) == Ok(entry.id.value)
  {
    WatchUrlRoundTrip(entry.id.value);
  }

  // ---------------------------------------------------------------------
  // Window, playlist ID and indexed URL

  /** `videos[:limit]` when the limit is given and positive, else all. */
  function Window(videos: seq<VideoInfo>, limit: Option<int>): (r: seq<VideoInfo>)
    ensures r <= videos
    ensures limit.Some? && limit.value > 0 ==> |r| == if limit.value < |videos| then limit.value else |videos|
    ensures !(limit.Some? && limit.value > 0) ==> r == videos
  {
    if limit.Some? && limit.value > 0 then Take(videos, limit.value) else videos
  }

  /** The playlist URL's first non-blank `list` query value, if its query
      is non-empty. */
  function PlaylistId(playlistUrl: string): (r: Option<string>)
    ensures r.Some? ==> r.value != ""
  {
    var query := ParseUrl(playlistUrl).query;
    if query != "" then QueryValue(query, "list") else None
  }

  /** The playlist page URL carries its ID. */
  lemma PlaylistIdOf(id: string)
    requires IsPlainId(id)
    ensures PlaylistId("https" + "://" + "www.youtube.com" + "/playlist" + "?" + ("list" + "=" + id)) == Some(id)
  {
    var query := "list" + "=" + id;
    forall i | 0 <= i < |query| ensures query[i] != '#' {
      if i >= 5 { assert query[i] == id[i - 5]; }
    }
    PlaylistPageParse(query);
    var name := "list";
    forall i | 0 <= i < |name| ensures IsIdChar(name[i]) {
      assert name[i] in "list";
    }
    QueryOfOneField(name, id);
  }

  /** How a playlist page URL parses. */
  lemma PlaylistPageParse(query: string)
    requires HasNo(query, '#')
    ensures ParseUrl("https" + "://" + "www.youtube.com" + "/playlist" + "?" + query).query == query
  {
    var path := "/playlist";
    HasNoOf(path, '?');
    HasNoOf(path, '#');
    HasNoOf(path, ';');
    SchemeHttps();
    HostPlain("www.youtube.com");
    ParseUrlOf("https", "www.youtube.com", path, query);
  }

  /** The URL a record is keyed by: the video URL with the playlist ID and
      the 1-based position appended, when the playlist URL has an ID. */
  function IndexedUrl(videoUrl: string, playlistId: Option<string>, index: int): string
  {
    if Truthy(playlistId) then videoUrl + "&list=" + playlistId.value + "&index=" + IntToString(index)
    else videoUrl
  }

  /** With a playlist ID, the same video at two positions gets two keys;
      without one, both positions share the video URL as their key. */
  lemma IndexedUrlKeepsIndex(videoUrl: string, playlistId: Option<string>, i: int, j: int)
    ensures Truthy(playlistId) ==> (IndexedUrl(videoUrl, playlistId, i) == IndexedUrl(videoUrl, playlistId, j) <==> i == j)
    ensures !Truthy(playlistId) ==> IndexedUrl(videoUrl, playlistId, i) == IndexedUrl(videoUrl, playlistId, j) == videoUrl
  {
    if Truthy(playlistId) && IndexedUrl(videoUrl, playlistId, i) == IndexedUrl(videoUrl, playlistId, j) {
      var head := videoUrl + "&list=" + playlistId.value + "&index=";
      assert IndexedUrl(videoUrl, playlistId, i) == head + IntToString(i);
      assert IndexedUrl(videoUrl, playlistId, j) == head + IntToString(j);
      assert IntToString(i) == (head + IntToString(i))[|head|..];
      assert IntToString(j) == (head + IntToString(j))[|head|..];
      IntToStringInjective(i, j);
    }
  }

  // ---------------------------------------------------------------------
  // Phase 1: subtitles

  /** An eligible video with its subtitles ("" when none could be had). */
  datatype Prepared = Prepared(index: int, videoUrl: string, indexedUrl: string, title: string,
                               duration: int, videoId: string, subtitles: string)

  datatype Phase1 = Phase1(prepared: seq<Prepared>, files: Files)

  /** One video of phase 1: a short video or one without an ID is skipped;
      otherwise its subtitles are fetched (through the cache). */
  function PrepareOne(files: Files, readOnly: set<string>, v: VideoInfo, index: int, playlistId: Option<string>, idOf: IdExtractor,
                      proxy: bool, env: Env, transcripts: Transcripts): Phase1
  {
    if IsShort(v.duration) then Phase1([], files)
    else match idOf(v.url)
      case Err(_) => Phase1([], files)
      case Ok(id) =>
        Phase1([Prepared(index, v.url, IndexedUrl(v.url, playlistId, index), v.title, v.duration, id,
                         OrEmpty(SubtitlesOf(files, id, proxy, env, transcripts)))],
               FilesAfterSubtitles(files, readOnly, id, proxy, env, transcripts))
  }

  /** Phase 1 over the window, the video at position `i` (from 0) having
      index `i + 1`. */
  function PrepareAll(files: Files, readOnly: set<string>, videos: seq<VideoInfo>, playlistId: Option<string>, idOf: IdExtractor,
                      proxy: bool, env: Env, transcripts: Transcripts): Phase1
    decreases |videos|
  {
    if videos == [] then Phase1([], files)
    else
      var before := PrepareAll(files, readOnly, videos[..|videos| - 1], playlistId, idOf, proxy, env, transcripts);
      var step := PrepareOne(before.files, readOnly, videos[|videos| - 1], |videos|, playlistId, idOf, proxy, env, transcripts);
      Phase1(before.prepared + step.prepared, step.files)
  }

  method PrepareVideos(cache: CacheStore, videos: seq<VideoInfo>, playlistId: Option<string>, idOf: IdExtractor,
                       proxy: bool, env: Env, transcripts: Transcripts) returns (prepared: seq<Prepared>)
    modifies cache
    ensures Phase1(prepared, cache.files) ==
      PrepareAll(old(cache.files), cache.readOnly, videos, playlistId, idOf, proxy, env, transcripts)
  {
    prepared := [];
    for i := 0 to |videos|
      invariant Phase1(prepared, cache.files) ==
        PrepareAll(old(cache.files), cache.readOnly, videos[..i], playlistId, idOf, proxy, env, transcripts)
    {
      assert videos[..i + 1][..i] == videos[..i];
      var item := PrepareVideo(cache, videos[i], i + 1, playlistId, idOf, proxy, env, transcripts);
      prepared := prepared + item;
    }
    assert videos[..|videos|] == videos;
  }

  /** The body of the phase 1 loop for the video at 1-based position
      `index`: the item it appends (none for a skipped video). */
  method PrepareVideo(cache: CacheStore, v: VideoInfo, index: int, playlistId: Option<string>, idOf: IdExtractor,
                      proxy: bool, env: Env, transcripts: Transcripts) returns (item: seq<Prepared>)
    modifies cache
    ensures Phase1(item, cache.files) ==
      PrepareOne(old(cache.files), cache.readOnly, v, index, playlistId, idOf, proxy, env, transcripts)
  {
    if 0 < v.duration && v.duration < 120 {
      return [];
    }
    var indexedUrl := v.url;
    if playlistId.Some? && playlistId.value != "" {
      indexedUrl := v.url + "&list=" + playlistId.value + "&index=" + IntToString(index);
    }
    var found := idOf(v.url);
    if found.Err? {
      return [];
    }
    var subtitles := DownloadSubtitles(cache, found.value, proxy, env, transcripts);
    item := [Prepared(index, v.url, indexedUrl, v.title, v.duration, found.value, OrEmpty(subtitles))];
  }

  /** What a prepared item says about the window video it came from. */
  predicate Describes(item: Prepared, v: VideoInfo, playlistId: Option<string>, idOf: IdExtractor) {
    item.videoUrl == v.url && item.title == v.title && item.duration == v.duration
    && !IsShort(v.duration) && idOf(v.url) == Ok(item.videoId)
    && item.indexedUrl == IndexedUrl(v.url, playlistId, item.index)
  }

  /** Phase 1's items are eligible videos of the window, each at its
      1-based position, in increasing order of position. */
  predicate Sound(p: seq<Prepared>, videos: seq<VideoInfo>, playlistId: Option<string>, idOf: IdExtractor) {
    forall k :: 0 <= k < |p| ==> 1 <= p[k].index <= |videos| && Describes(p[k], videos[p[k].index - 1], playlistId, idOf)
  }

  predicate Increasing(p: seq<Prepared>) {
    forall j, k :: 0 <= j < k < |p| ==> p[j].index < p[k].index
  }

  /** One video of phase 1 adds at most one item, describing that video. */
  lemma PrepareOneItem(files: Files, readOnly: set<string>, v: VideoInfo, index: int, playlistId: Option<string>,
                       idOf: IdExtractor, proxy: bool, env: Env, transcripts: Transcripts)
    ensures var s := PrepareOne(files, readOnly, v, index, playlistId, idOf, proxy, env, transcripts).prepared;
      |s| <= 1 && (s != [] ==> s[0].index == index && Describes(s[0], v, playlistId, idOf))
      && (s == [] <==> IsShort(v.duration) || idOf(v.url).Err?)
  {
  }

  /** Phase 1 keeps only eligible videos, each at its 1-based position in
      the window, in increasing order of position. */
  lemma {:induction false} PreparedSound(files: Files, readOnly: set<string>, videos: seq<VideoInfo>,
                                         playlistId: Option<string>, idOf: IdExtractor, proxy: bool, env: Env, transcripts: Transcripts)
    ensures var p := PrepareAll(files, readOnly, videos, playlistId, idOf, proxy, env, transcripts).prepared;
      Sound(p, videos, playlistId, idOf) && Increasing(p) && |p| <= |videos|
    decreases |videos|
  {
    if videos != [] {
      var init := videos[..|videos| - 1];
      var before := PrepareAll(files, readOnly, init, playlistId, idOf, proxy, env, transcripts);
      PreparedSound(files, readOnly, init, playlistId, idOf, proxy, env, transcripts);
      PrepareOneItem(before.files, readOnly, videos[|videos| - 1], |videos|, playlistId, idOf, proxy, env, transcripts);
      SoundExtend(before.prepared,
                  PrepareOne(before.files, readOnly, videos[|videos| - 1], |videos|, playlistId, idOf, proxy, env, transcripts).prepared,
                  videos, playlistId, idOf);
    }
  }

  /** Soundness survives appending the item of the next video. */
  lemma SoundExtend(p: seq<Prepared>, s: seq<Prepared>, videos: seq<VideoInfo>, playlistId: Option<string>, idOf: IdExtractor)
    requires videos != []
    requires Sound(p, videos[..|videos| - 1], playlistId, idOf) && Increasing(p) && |p| <= |videos| - 1
    requires |s| <= 1 && (s != [] ==> s[0].index == |videos| && Describes(s[0], videos[|videos| - 1], playlistId, idOf))
    ensures Sound(p + s, videos, playlistId, idOf) && Increasing(p + s) && |p + s| <= |videos|
  {
    SoundAppend(p, s, videos, playlistId, idOf);
    IncreasingAppend(p, s, |videos|);
  }

  lemma SoundAppend(p: seq<Prepared>, s: seq<Prepared>, videos: seq<VideoInfo>, playlistId: Option<string>, idOf: IdExtractor)
    requires videos != [] && Sound(p, videos[..|videos| - 1], playlistId, idOf)
    requires |s| <= 1 && (s != [] ==> s[0].index == |videos| && Describes(s[0], videos[|videos| - 1], playlistId, idOf))
    ensures Sound(p + s, videos, playlistId, idOf)
  {
    var init := videos[..|videos| - 1];
    forall k | 0 <= k < |p + s|
      ensures 1 <= (p + s)[k].index <= |videos| && Describes((p + s)[k], videos[(p + s)[k].index - 1], playlistId, idOf)
    {
      if k < |p| {
        assert (p + s)[k] == p[k];
        assert videos[p[k].index - 1] == init[p[k].index - 1];
      } else {
        assert (p + s)[k] == s[0];
      }
    }
  }

  lemma IncreasingAppend(p: seq<Prepared>, s: seq<Prepared>, n: int)
    requires Increasing(p) && forall k :: 0 <= k < |p| ==> p[k].index < n
    requires |s| <= 1 && (s != [] ==> s[0].index == n)
    ensures Increasing(p + s)
  {
    forall j, k | 0 <= j < k < |p + s| ensures (p + s)[j].index < (p + s)[k].index {
      assert (p + s)[j] == p[j];
      if k < |p| {
        assert (p + s)[k] == p[k];
      } else {
        assert (p + s)[k] == s[0];
      }
    }
  }

  /** Does some prepared item have this index? */
  predicate HasIndex(p: seq<Prepared>, index: int) {
    exists k :: 0 <= k < |p| && p[k].index == index
  }

  /** Phase 1 keeps every eligible video of the window. */
  lemma {:induction false} PreparedComplete(files: Files, readOnly: set<string>, videos: seq<VideoInfo>,
                                            playlistId: Option<string>, idOf: IdExtractor, proxy: bool, env: Env, transcripts: Transcripts)
    ensures forall i :: 0 <= i < |videos| && !IsShort(videos[i].duration) && idOf(videos[i].url).Ok? ==>
      HasIndex(PrepareAll(files, readOnly, videos, playlistId, idOf, proxy, env, transcripts).prepared, i + 1)
    decreases |videos|
  {
    if videos != [] {
      var init := videos[..|videos| - 1];
      var before := PrepareAll(files, readOnly, init, playlistId, idOf, proxy, env, transcripts);
      var step := PrepareOne(before.files, readOnly, videos[|videos| - 1], |videos|, playlistId, idOf, proxy, env, transcripts);
      PreparedComplete(files, readOnly, init, playlistId, idOf, proxy, env, transcripts);
      var p := before.prepared + step.prepared;
      assert PrepareAll(files, readOnly, videos, playlistId, idOf, proxy, env, transcripts).prepared == p;
      forall i | 0 <= i < |videos| && !IsShort(videos[i].duration) && idOf(videos[i].url).Ok?
        ensures HasIndex(p, i + 1)
      {
        if i < |init| {
          assert init[i] == videos[i];
          var k :| 0 <= k < |before.prepared| && before.prepared[k].index == i + 1;
          assert p[k] == before.prepared[k];
        } else {
          assert p[|before.prepared|].index == i + 1;
        }
      }
    }
  }

  /** Phase 1 writes subtitle files only. */
  lemma {:induction false} PrepareWritesSubtitlesOnly(files: Files, readOnly: set<string>, videos: seq<VideoInfo>,
                                                      playlistId: Option<string>, idOf: IdExtractor, proxy: bool, env: Env,
                                                      transcripts: Transcripts, path: string)
    requires forall id :: path != SubtitlePath(id)
    ensures SameAt(PrepareAll(files, readOnly, videos, playlistId, idOf, proxy, env, transcripts).files, files, path)
    decreases |videos|
  {
    if videos != [] {
      PrepareWritesSubtitlesOnly(files, readOnly, videos[..|videos| - 1], playlistId, idOf, proxy, env, transcripts, path);
    }
  }

  // ---------------------------------------------------------------------
  // Phase 2: summaries

  datatype Phase2 = Phase2(output: map<string, TalkRecord>, files: Files)

  /** Phase 2 over the prepared videos: each gets its summary (cached,
      generated or blank) and its record under its indexed URL; a later
      record with the same key replaces an earlier one. */
  function SummarizeAll(files: Files, readOnly: set<string>, prepared: seq<Prepared>, e: Engine, useCache: bool): Phase2
    decreases |prepared|
  {
    if prepared == [] then Phase2(map[], files)
    else
      var before := SummarizeAll(files, readOnly, prepared[..|prepared| - 1], e, useCache);
      var item := prepared[|prepared| - 1];
      var summary := SummaryFor(before.files, e, item.videoId, item.subtitles, item.title, useCache);
      Phase2(before.output[item.indexedUrl := TalkRecord(item.index, item.title, summary, None, None, None)],
             FilesAfterSummary(before.files, readOnly, e, item.videoId, item.subtitles, item.title, useCache))
  }

  method SummarizeVideos(cache: CacheStore, prepared: seq<Prepared>, e: Engine, useCache: bool)
    returns (output: map<string, TalkRecord>)
    modifies cache
    ensures Phase2(output, cache.files) == SummarizeAll(old(cache.files), cache.readOnly, prepared, e, useCache)
  {
    output := map[];
    for i := 0 to |prepared|
      invariant Phase2(output, cache.files) == SummarizeAll(old(cache.files), cache.readOnly, prepared[..i], e, useCache)
    {
      output := SummarizeVideo(cache, prepared, i, output, old(cache.files), e, useCache);
    }
    assert prepared[..|prepared|] == prepared;
  }

  /** One item of phase 2: obtain its summary and record it under its
      indexed URL. */
  method SummarizeVideo(cache: CacheStore, prepared: seq<Prepared>, i: nat, output: map<string, TalkRecord>,
                        ghost start: Files, e: Engine, useCache: bool) returns (extended: map<string, TalkRecord>)
    requires i < |prepared|
    requires Phase2(output, cache.files) == SummarizeAll(start, cache.readOnly, prepared[..i], e, useCache)
    modifies cache
    ensures Phase2(extended, cache.files) == SummarizeAll(start, cache.readOnly, prepared[..i + 1], e, useCache)
  {
    assert prepared[..i + 1][..i] == prepared[..i];
    var item := prepared[i];
    var summary := ObtainSummary(cache, e, item.videoId, item.subtitles, item.title, useCache);
    extended := output[item.indexedUrl := TalkRecord(item.index, item.title, summary, None, None, None)];
  }

  /** What the record of a prepared item is: its index and title, no
      schedule fields, and, when the summary cache is not used, the
      generated summary when there are subtitles and a blank one when
      there are none. */
  predicate RecordOf(r: TalkRecord, item: Prepared, e: Engine, useCache: bool) {
    r.index == item.index && r.title == item.title
    && r.schedLink.None? && r.eventType.None? && r.deckUrl.None?
    && (!useCache ==> r.summary == if item.subtitles != "" then e.summarize(item.subtitles, item.title) else "")
  }

  /** The position of the last prepared item keyed by `url`, or -1 when
      there is none. */
  function LastKeyed(prepared: seq<Prepared>, url: string): (k: int)
    ensures -1 <= k < |prepared|
    ensures k >= 0 ==> prepared[k].indexedUrl == url && forall j :: k < j < |prepared| ==> prepared[j].indexedUrl != url
    ensures k < 0 ==> forall j :: 0 <= j < |prepared| ==> prepared[j].indexedUrl != url
    decreases |prepared|
  {
    if prepared == [] then -1
    else if prepared[|prepared| - 1].indexedUrl == url then |prepared| - 1
    else LastKeyed(prepared[..|prepared| - 1], url)
  }

  /** The keys are exactly the prepared items' indexed URLs, and the record
      under a key is that of the last item with that key. */
  lemma {:induction false} OutputLastWins(files: Files, readOnly: set<string>, prepared: seq<Prepared>, e: Engine, useCache: bool)
    ensures var out := SummarizeAll(files, readOnly, prepared, e, useCache).output;
      forall url :: (url in out <==> LastKeyed(prepared, url) >= 0)
        && (url in out ==> RecordOf(out[url], prepared[LastKeyed(prepared, url)], e, useCache))
    decreases |prepared|
  {
    if prepared != [] {
      var init := prepared[..|prepared| - 1];
      var n := |prepared| - 1;
      var item := prepared[n];
      var before := SummarizeAll(files, readOnly, init, e, useCache);
      var summary := SummaryFor(before.files, e, item.videoId, item.subtitles, item.title, useCache);
      var out := SummarizeAll(files, readOnly, prepared, e, useCache).output;
      OutputLastWins(files, readOnly, init, e, useCache);
      assert out == before.output[item.indexedUrl := TalkRecord(item.index, item.title, summary, None, None, None)];
      assert RecordOf(out[item.indexedUrl], item, e, useCache);
      forall url | url != item.indexedUrl
        ensures LastKeyed(prepared, url) == LastKeyed(init, url)
        ensures LastKeyed(init, url) >= 0 ==> prepared[LastKeyed(init, url)] == init[LastKeyed(init, url)]
      {
      }
    }
  }

  /** Phase 2 writes this summarizer's summary files only. */
  lemma {:induction false} SummarizeWritesSummariesOnly(files: Files, readOnly: set<string>, prepared: seq<Prepared>,
                                                        e: Engine, useCache: bool, path: string)
    requires forall id :: path != SummaryPath(id, e.summarizer)
    ensures SameAt(SummarizeAll(files, readOnly, prepared, e, useCache).files, files, path)
    decreases |prepared|
  {
    if prepared != [] {
      SummarizeWritesSummariesOnly(files, readOnly, prepared[..|prepared| - 1], e, useCache, path);
    }
  }

  // ---------------------------------------------------------------------
  // process_playlist

  /** The listing the pipeline works on and the cache after obtaining it. */
  datatype Listing = Listing(videos: Option<seq<VideoInfo>>, files: Files)

  /** The cached listing unless a refresh is asked for; on a miss, the
      extracted listing, which is cached; `None` when extraction fails or
      finds no entries. */
  function ListingOf(files: Files, readOnly: set<string>, digest: string -> string, playlistUrl: string,
                     refresh: bool, extraction: Extraction): Listing
  {
    var cached := if refresh then None else LoadPlaylist(files, digest, playlistUrl);
    if cached.Some? then Listing(cached, files)
    else match extraction
      case Extracted(entries) =>
        Listing(Some(ListedVideos(entries)),
                Stored(files, readOnly, PlaylistPath(digest, playlistUrl), VideoList(ListedVideos(entries))))
      case _ => Listing(None, files)
  }

  /** The two phases over a window of videos. */
  function RunPhases(files: Files, readOnly: set<string>, videos: seq<VideoInfo>, playlistId: Option<string>,
                     idOf: IdExtractor, e: Engine, useCache: bool, proxy: bool, env: Env, transcripts: Transcripts): Phase2
  {
    var p1 := PrepareAll(files, readOnly, videos, playlistId, idOf, proxy, env, transcripts);
    SummarizeAll(p1.files, readOnly, p1.prepared, e, useCache)
  }

  /** `process_playlist` on the cache `files`. */
  function PlaylistRun(files: Files, readOnly: set<string>, digest: string -> string, playlistUrl: string, e: Engine,
                       limit: Option<int>, refresh: bool, useCache: bool, proxy: bool, env: Env,
                       extraction: Extraction, transcripts: Transcripts): Phase2
  {
    var listing := ListingOf(files, readOnly, digest, playlistUrl, refresh, extraction);
    if listing.videos.None? then Phase2(map[], listing.files)
    else RunPhases(listing.files, readOnly, Window(listing.videos.value, limit), PlaylistId(playlistUrl),
                   ExtractVideoId, e, useCache, proxy, env, transcripts)
  }

  /** The first part of `process_playlist`: the cached listing, else the
      extracted one, saved to the cache. */
  method ObtainListing(cache: CacheStore, digest: string -> string, playlistUrl: string, refresh: bool,
                       extraction: Extraction) returns (videos: Option<seq<VideoInfo>>)
    modifies cache
    ensures Listing(videos, cache.files) == ListingOf(old(cache.files), cache.readOnly, digest, playlistUrl, refresh, extraction)
  {
    videos := None;
    if !refresh {
      videos := LoadPlaylist(cache.files, digest, playlistUrl);
    }
    if videos.None? {
      match extraction
      case Extracted(entries) =>
        var listed := CollectVideos(entries);
        SavePlaylist(cache, digest, playlistUrl, listed);
        videos := Some(listed);
      case ExtractFailed =>
      case NoEntries =>
    }
  }

  method ProcessPlaylist(cache: CacheStore, digest: string -> string, playlistUrl: string, e: Engine,
                         limit: Option<int>, refresh: bool, useCache: bool, proxy: bool, env: Env,
                         extraction: Extraction, transcripts: Transcripts) returns (output: map<string, TalkRecord>)
    modifies cache
    ensures Phase2(output, cache.files) ==
      PlaylistRun(old(cache.files), cache.readOnly, digest, playlistUrl, e, limit, refresh, useCache, proxy, env,
                  extraction, transcripts)
  {
    var videos := ObtainListing(cache, digest, playlistUrl, refresh, extraction);
    if videos.None? {
      return map[];
    }
    var window := Window(videos.value, limit);
    var playlistId := PlaylistId(playlistUrl);
    var prepared := PrepareVideos(cache, window, playlistId, ExtractVideoId, proxy, env, transcripts);
    output := SummarizeVideos(cache, prepared, e, useCache);
  }

  // ---------------------------------------------------------------------
  // Properties of the whole pipeline

  /** When the listing cannot be had, the result is empty and the cache is
      as it was. */
  lemma PlaylistFailure(files: Files, readOnly: set<string>, digest: string -> string, playlistUrl: string, e: Engine,
                        limit: Option<int>, refresh: bool, useCache: bool, proxy: bool, env: Env,
                        extraction: Extraction, transcripts: Transcripts)
    requires refresh || LoadPlaylist(files, digest, playlistUrl).None?
    requires !extraction.Extracted?
    ensures PlaylistRun(files, readOnly, digest, playlistUrl, e, limit, refresh, useCache, proxy, env, extraction, transcripts)
      == Phase2(map[], files)
  {
  }

  /** With a cached listing and no refresh, the extractor is not consulted. */
  lemma CachedListingIgnoresExtraction(files: Files, readOnly: set<string>, digest: string -> string, playlistUrl: string,
                                       e: Engine, limit: Option<int>, useCache: bool, proxy: bool, env: Env,
                                       x1: Extraction, x2: Extraction, transcripts: Transcripts)
    requires LoadPlaylist(files, digest, playlistUrl).Some?
    ensures PlaylistRun(files, readOnly, digest, playlistUrl, e, limit, false, useCache, proxy, env, x1, transcripts)
      == PlaylistRun(files, readOnly, digest, playlistUrl, e, limit, false, useCache, proxy, env, x2, transcripts)
  {
    assert ListingOf(files, readOnly, digest, playlistUrl, false, x1) == ListingOf(files, readOnly, digest, playlistUrl, false, x2);
  }

  /** Phase 1 on two caches that agree off a path holding no subtitle file
      prepares the same items and leaves caches that still agree off it. */
  lemma {:induction false} PrepareAllAgree(f: Files, g: Files, readOnly: set<string>, path: string, videos: seq<VideoInfo>,
                                           playlistId: Option<string>, idOf: IdExtractor, proxy: bool, env: Env,
                                           transcripts: Transcripts)
    requires AgreeOff(f, g, path) && forall id :: path != SubtitlePath(id)
    ensures var p := PrepareAll(f, readOnly, videos, playlistId, idOf, proxy, env, transcripts);
      var q := PrepareAll(g, readOnly, videos, playlistId, idOf, proxy, env, transcripts);
      p.prepared == q.prepared && AgreeOff(p.files, q.files, path)
    decreases |videos|
  {
    if videos != [] {
      var init := videos[..|videos| - 1];
      var v := videos[|videos| - 1];
      PrepareAllAgree(f, g, readOnly, path, init, playlistId, idOf, proxy, env, transcripts);
      var p := PrepareAll(f, readOnly, init, playlistId, idOf, proxy, env, transcripts);
      var q := PrepareAll(g, readOnly, init, playlistId, idOf, proxy, env, transcripts);
      if !IsShort(v.duration) && idOf(v.url).Ok? {
        SubtitlesAgree(p.files, q.files, readOnly, path, idOf(v.url).value, proxy, env, transcripts);
      }
    }
  }

  /** Phase 2 on two caches that agree off a path holding no summary file
      of this summarizer yields the same records and leaves caches that
      still agree off it. */
  lemma {:induction false} SummarizeAllAgree(f: Files, g: Files, readOnly: set<string>, path: string, prepared: seq<Prepared>,
                                             e: Engine, useCache: bool)
    requires AgreeOff(f, g, path) && forall id :: path != SummaryPath(id, e.summarizer)
    ensures var p := SummarizeAll(f, readOnly, prepared, e, useCache);
      var q := SummarizeAll(g, readOnly, prepared, e, useCache);
      p.output == q.output && AgreeOff(p.files, q.files, path)
    decreases |prepared|
  {
    if prepared != [] {
      var init := prepared[..|prepared| - 1];
      var item := prepared[|prepared| - 1];
      SummarizeAllAgree(f, g, readOnly, path, init, e, useCache);
      var p := SummarizeAll(f, readOnly, init, e, useCache);
      var q := SummarizeAll(g, readOnly, init, e, useCache);
      SummaryAgree(p.files, q.files, readOnly, path, e, item.videoId, item.subtitles, item.title, useCache);
    }
  }

  /** Both phases depend on the cache only through the subtitle files and
      this summarizer's summary files. */
  lemma RunPhasesAgree(f: Files, g: Files, readOnly: set<string>, path: string, videos: seq<VideoInfo>,
                       playlistId: Option<string>, idOf: IdExtractor, e: Engine, useCache: bool, proxy: bool, env: Env,
                       transcripts: Transcripts)
    requires AgreeOff(f, g, path) && Untouched(path, e.summarizer)
    ensures var p := RunPhases(f, readOnly, videos, playlistId, idOf, e, useCache, proxy, env, transcripts);
      var q := RunPhases(g, readOnly, videos, playlistId, idOf, e, useCache, proxy, env, transcripts);
      p.output == q.output && AgreeOff(p.files, q.files, path)
  {
    PrepareAllAgree(f, g, readOnly, path, videos, playlistId, idOf, proxy, env, transcripts);
    var p1 := PrepareAll(f, readOnly, videos, playlistId, idOf, proxy, env, transcripts);
    var q1 := PrepareAll(g, readOnly, videos, playlistId, idOf, proxy, env, transcripts);
    SummarizeAllAgree(p1.files, q1.files, readOnly, path, p1.prepared, e, useCache);
  }

  /** A refresh never reads the playlist cache: two caches that differ at
      most in the playlist's file give the same output, and afterwards
      still differ at most there; when the listing is extracted and the
      file can be written, they end up the same. */
  lemma RefreshIgnoresCachedListing(f: Files, g: Files, readOnly: set<string>, digest: string -> string, playlistUrl: string,
                                    e: Engine, limit: Option<int>, useCache: bool, proxy: bool, env: Env,
                                    extraction: Extraction, transcripts: Transcripts)
    requires AgreeOff(f, g, PlaylistPath(digest, playlistUrl))
    ensures var p := PlaylistRun(f, readOnly, digest, playlistUrl, e, limit, true, useCache, proxy, env, extraction, transcripts);
      var q := PlaylistRun(g, readOnly, digest, playlistUrl, e, limit, true, useCache, proxy, env, extraction, transcripts);
      p.output == q.output && AgreeOff(p.files, q.files, PlaylistPath(digest, playlistUrl))
      && (extraction.Extracted? && PlaylistPath(digest, playlistUrl) !in readOnly ==> p.files == q.files)
  {
    var path := PlaylistPath(digest, playlistUrl);
    var lf := ListingOf(f, readOnly, digest, playlistUrl, true, extraction);
    var lg := ListingOf(g, readOnly, digest, playlistUrl, true, extraction);
    if extraction.Extracted? {
      var stored := VideoList(ListedVideos(extraction.entries));
      forall q | q != path ensures SameAt(lf.files, lg.files, q) {
        assert SameAt(f, g, q);
      }
      forall id ensures path != SubtitlePath(id) && path != SummaryPath(id, e.summarizer) {
        NamespacesDisjoint(digest, playlistUrl, id, id, e.summarizer);
      }
      var videos := Window(lf.videos.value, limit);
      RunPhasesAgree(lf.files, lg.files, readOnly, path, videos, PlaylistId(playlistUrl), ExtractVideoId, e,
                     useCache, proxy, env, transcripts);
      if path !in readOnly {
        PhasesWriteOnly(lf.files, readOnly, videos, PlaylistId(playlistUrl), ExtractVideoId, e, useCache, proxy, env, transcripts, path);
        PhasesWriteOnly(lg.files, readOnly, videos, PlaylistId(playlistUrl), ExtractVideoId, e, useCache, proxy, env, transcripts, path);
        var p := RunPhases(lf.files, readOnly, videos, PlaylistId(playlistUrl), ExtractVideoId, e, useCache, proxy, env, transcripts);
        var q := RunPhases(lg.files, readOnly, videos, PlaylistId(playlistUrl), ExtractVideoId, e, useCache, proxy, env, transcripts);
        assert SameAt(p.files, q.files, path);
        AgreeEverywhere(p.files, q.files, path);
      }
    }
  }

  /** Every record comes from an eligible video of `videos`: its index is
      the video's 1-based position, its key the video's indexed URL, its
      title the video's title. */
  predicate FromWindow(out: map<string, TalkRecord>, videos: seq<VideoInfo>, playlistId: Option<string>, idOf: IdExtractor) {
    forall url :: url in out ==>
      1 <= out[url].index <= |videos|
      && !IsShort(videos[out[url].index - 1].duration) && idOf(videos[out[url].index - 1].url).Ok?
      && url == IndexedUrl(videos[out[url].index - 1].url, playlistId, out[url].index)
      && out[url].title == videos[out[url].index - 1].title
  }

  lemma PhasesRecords(files: Files, readOnly: set<string>, videos: seq<VideoInfo>, playlistId: Option<string>,
                      idOf: IdExtractor, e: Engine, useCache: bool, proxy: bool, env: Env, transcripts: Transcripts)
    ensures FromWindow(RunPhases(files, readOnly, videos, playlistId, idOf, e, useCache, proxy, env, transcripts).output,
                       videos, playlistId, idOf)
  {
    var p1 := PrepareAll(files, readOnly, videos, playlistId, idOf, proxy, env, transcripts);
    PreparedSound(files, readOnly, videos, playlistId, idOf, proxy, env, transcripts);
    OutputLastWins(p1.files, readOnly, p1.prepared, e, useCache);
    RecordsFromItems(videos, playlistId, idOf, p1.prepared, SummarizeAll(p1.files, readOnly, p1.prepared, e, useCache).output, e, useCache);
  }

  /** The step from the items of phase 1 to the records of phase 2. */
  lemma RecordsFromItems(videos: seq<VideoInfo>, playlistId: Option<string>, idOf: IdExtractor,
                         prepared: seq<Prepared>, out: map<string, TalkRecord>, e: Engine, useCache: bool)
    requires Sound(prepared, videos, playlistId, idOf)
    requires forall url ::
      (url in out <==> LastKeyed(prepared, url) >= 0) && (url in out ==> RecordOf(out[url], prepared[LastKeyed(prepared, url)], e, useCache))
    ensures FromWindow(out, videos, playlistId, idOf)
  {
    forall url | url in out
      ensures 1 <= out[url].index <= |videos|
        && !IsShort(videos[out[url].index - 1].duration) && idOf(videos[out[url].index - 1].url).Ok?
        && url == IndexedUrl(videos[out[url].index - 1].url, playlistId, out[url].index)
        && out[url].title == videos[out[url].index - 1].title
    {
      var k := LastKeyed(prepared, url);
      RecordFromItem(videos, playlistId, idOf, prepared[k], out[url], url, e, useCache);
    }
  }

  lemma RecordFromItem(videos: seq<VideoInfo>, playlistId: Option<string>, idOf: IdExtractor, item: Prepared,
                       r: TalkRecord, url: string, e: Engine, useCache: bool)
    requires 1 <= item.index <= |videos| && Describes(item, videos[item.index - 1], playlistId, idOf)
    requires item.indexedUrl == url && RecordOf(r, item, e, useCache)
    ensures 1 <= r.index <= |videos|
      && !IsShort(videos[r.index - 1].duration) && idOf(videos[r.index - 1].url).Ok?
      && url == IndexedUrl(videos[r.index - 1].url, playlistId, r.index)
      && r.title == videos[r.index - 1].title
  {
  }

  /** Every eligible video has a record under its indexed URL. */
  lemma PhasesComplete(files: Files, readOnly: set<string>, videos: seq<VideoInfo>, playlistId: Option<string>,
                       idOf: IdExtractor, e: Engine, useCache: bool, proxy: bool, env: Env, transcripts: Transcripts,
                       i: int)
    requires 0 <= i < |videos| && !IsShort(videos[i].duration) && idOf(videos[i].url).Ok?
    ensures IndexedUrl(videos[i].url, playlistId, i + 1)
      in RunPhases(files, readOnly, videos, playlistId, idOf, e, useCache, proxy, env, transcripts).output
  {
    var p1 := PrepareAll(files, readOnly, videos, playlistId, idOf, proxy, env, transcripts);
    PreparedComplete(files, readOnly, videos, playlistId, idOf, proxy, env, transcripts);
    PreparedSound(files, readOnly, videos, playlistId, idOf, proxy, env, transcripts);
    var k :| 0 <= k < |p1.prepared| && p1.prepared[k].index == i + 1;
    var url := IndexedUrl(videos[i].url, playlistId, i + 1);
    assert Describes(p1.prepared[k], videos[i], playlistId, idOf);
    assert LastKeyed(p1.prepared, url) >= 0;
    OutputLastWins(p1.files, readOnly, p1.prepared, e, useCache);
  }

  /** The phases write subtitle files and this summarizer's summary files
      only. */
  lemma PhasesWriteOnly(files: Files, readOnly: set<string>, videos: seq<VideoInfo>, playlistId: Option<string>,
                        idOf: IdExtractor, e: Engine, useCache: bool, proxy: bool, env: Env, transcripts: Transcripts,
                        path: string)
    requires forall id :: path != SubtitlePath(id) && path != SummaryPath(id, e.summarizer)
    ensures SameAt(RunPhases(files, readOnly, videos, playlistId, idOf, e, useCache, proxy, env, transcripts).files, files, path)
  {
    var p1 := PrepareAll(files, readOnly, videos, playlistId, idOf, proxy, env, transcripts);
    PrepareWritesSubtitlesOnly(files, readOnly, videos, playlistId, idOf, proxy, env, transcripts, path);
    SummarizeWritesSummariesOnly(p1.files, readOnly, p1.prepared, e, useCache, path);
  }

  /** A freshly extracted listing is cached whole, before the limit is
      applied, and the two phases leave it in place. */
  lemma FullListingCached(files: Files, readOnly: set<string>, digest: string -> string, playlistUrl: string, e: Engine,
                          limit: Option<int>, refresh: bool, useCache: bool, proxy: bool, env: Env,
                          entries: seq<Option<Entry>>, transcripts: Transcripts)
    requires refresh || LoadPlaylist(files, digest, playlistUrl).None?
    requires PlaylistPath(digest, playlistUrl) !in readOnly
    ensures var run := PlaylistRun(files, readOnly, digest, playlistUrl, e, limit, refresh, useCache, proxy, env,
                                   Extracted(entries), transcripts);
      LoadPlaylist(run.files, digest, playlistUrl) == Some(ListedVideos(entries))
  {
    var path := PlaylistPath(digest, playlistUrl);
    var listing := ListingOf(files, readOnly, digest, playlistUrl, refresh, Extracted(entries));
    PlaylistRoundTrip(files, readOnly, digest, playlistUrl, ListedVideos(entries));
    forall id ensures path != SubtitlePath(id) && path != SummaryPath(id, e.summarizer) {
      NamespacesDisjoint(digest, playlistUrl, id, id, e.summarizer);
    }
    PhasesWriteOnly(listing.files, readOnly, Window(listing.videos.value, limit), PlaylistId(playlistUrl),
                    ExtractVideoId, e, useCache, proxy, env, transcripts, path);
  }

  /** Every record comes from an eligible video of the window: its index
      is the video's 1-based position (so at most `limit`), its key is the
      video's indexed URL, its title the video's title. */
  lemma PlaylistRecords(files: Files, readOnly: set<string>, digest: string -> string, playlistUrl: string, e: Engine,
                        limit: Option<int>, refresh: bool, useCache: bool, proxy: bool, env: Env,
                        extraction: Extraction, transcripts: Transcripts)
    ensures var listing := ListingOf(files, readOnly, digest, playlistUrl, refresh, extraction);
      var out := PlaylistRun(files, readOnly, digest, playlistUrl, e, limit, refresh, useCache, proxy, env, extraction, transcripts).output;
      out != map[] ==> (listing.videos.Some?
        && FromWindow(out, Window(listing.videos.value, limit), PlaylistId(playlistUrl), ExtractVideoId)
        && (limit.Some? && limit.value > 0 ==> forall url :: url in out ==> out[url].index <= limit.value))
  {
    var listing := ListingOf(files, readOnly, digest, playlistUrl, refresh, extraction);
    if listing.videos.Some? {
      var videos := Window(listing.videos.value, limit);
      PhasesRecords(listing.files, readOnly, videos, PlaylistId(playlistUrl), ExtractVideoId, e, useCache, proxy, env, transcripts);
      var out := RunPhases(listing.files, readOnly, videos, PlaylistId(playlistUrl), ExtractVideoId, e, useCache, proxy, env, transcripts).output;
      assert forall url :: url in out ==> out[url].index <= |videos|;
    }
  }

  /** Every eligible video of the window has a record under its indexed URL. */
  lemma PlaylistComplete(files: Files, readOnly: set<string>, digest: string -> string, playlistUrl: string, e: Engine,
                         limit: Option<int>, refresh: bool, useCache: bool, proxy: bool, env: Env,
                         extraction: Extraction, transcripts: Transcripts, i: int)
    requires ListingOf(files, readOnly, digest, playlistUrl, refresh, extraction).videos.Some?
    requires var videos := Window(ListingOf(files, readOnly, digest, playlistUrl, refresh, extraction).videos.value, limit);
      0 <= i < |videos| && !IsShort(videos[i].duration) && ExtractVideoId(videos[i].url).Ok?
    ensures var videos := Window(ListingOf(files, readOnly, digest, playlistUrl, refresh, extraction).videos.value, limit);
      IndexedUrl(videos[i].url, PlaylistId(playlistUrl), i + 1)
        in PlaylistRun(files, readOnly, digest, playlistUrl, e, limit, refresh, useCache, proxy, env, extraction, transcripts).output
  {
    var listing := ListingOf(files, readOnly, digest, playlistUrl, refresh, extraction);
    PhasesComplete(listing.files, readOnly, Window(listing.videos.value, limit), PlaylistId(playlistUrl),
                   ExtractVideoId, e, useCache, proxy, env, transcripts, i);
  }
}
