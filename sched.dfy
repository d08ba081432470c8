/** The schedule pipeline: `scrape_sched_talks_async` (the event page's
    links, the offset countdown and the early-stopping limit) and
    `process_sched_talks` (cache first, the window, then records built from
    the descriptions or from summaries).  The event page is an oracle that
    yields, for each event item, the `href` of its first `/event/` link. */
module Sched {
  import opened Common
  import opened Text
  import opened Urls
  import opened Cache
  import opened CoreCache
  import opened VideoIds
  import opened Videos
  import opened SchedCache
  import opened SchedDetail

  /** The event page: per event item, the `href` of its first `/event/`
      link (`None` for an item without one), or a failed request. */
  datatype ListingReply = EventItems(hrefs: seq<Option<string>>) | ListingFailed

  type ListingFetcher = string -> ListingReply

  // ---------------------------------------------------------------------
  // The event links

  /** The absolute links of the items that have one, in page order. */
  function EventLinks(hrefs: seq<Option<string>>, page: string): (r: seq<string>)
    ensures |r| <= |hrefs|
    ensures forall i :: 0 <= i < |r| ==> StartsWith(r[i], "http") || StartsWith(r[i], BaseUrl(page))
    ensures (forall i :: 0 <= i < |hrefs| ==> hrefs[i].Some?) ==>
      |r| == |hrefs| && forall i :: 0 <= i < |r| ==> r[i] == MakeAbsolute(hrefs[i].value, page)
    decreases |hrefs|
  {
    if hrefs == [] then []
    else
      var before := EventLinks(hrefs[..|hrefs| - 1], page);
      match hrefs[|hrefs| - 1]
      case None => before
      case Some(href) =>
        var link := MakeAbsolute(href, page);
        assert !StartsWith(href, "http") ==> link[..|BaseUrl(page)|] == BaseUrl(page);
        before + [link]
  }

  method CollectEventLinks(hrefs: seq<Option<string>>, page: string) returns (links: seq<string>)
    ensures links == EventLinks(hrefs, page)
  {
    links := [];
    for i := 0 to |hrefs|
      invariant links == EventLinks(hrefs[..i], page)
    {
      assert hrefs[..i + 1][..i] == hrefs[..i];
      if hrefs[i].Some? {
        links := links + [MakeAbsolute(hrefs[i].value, page)];
      }
    }
    assert hrefs[..|hrefs|] == hrefs;
  }

  // ---------------------------------------------------------------------
  // The detail loop

  /** The talks with a video among the detail pages of `links`, in order. */
  function Details(links: seq<string>, fetch: PageFetcher): (r: seq<SchedTalk>)
    ensures |r| <= |links|
    ensures forall i :: 0 <= i < |r| ==> r[i].schedLink in links && r[i].youtubeUrl != ""
    decreases |links|
  {
    if links == [] then []
    else
      var before := Details(links[..|links| - 1], fetch);
      var link := links[|links| - 1];
      TalkDetailShape(fetch, link);
      match TalkDetailOf(fetch, link)
      case None => before
      case Some(t) => before + [t]
  }

  /** `limit and len(talks) >= limit`. */
  predicate LimitReached(limit: Option<int>, count: nat) {
    limit.Some? && limit.value != 0 && count >= limit.value
  }

  /** `offset if offset and offset > 0 else 0`. */
  function Skip(offset: int): nat {
    if offset > 0 then offset else 0
  }

  /** How many of the links after the skipped ones are fetched, counting
      from the `j`-th: every one, up to and including the one whose talk
      makes the count reach the limit. */
  function Processed(rest: seq<string>, limit: Option<int>, fetch: PageFetcher, j: nat): (m: nat)
    requires j <= |rest|
    ensures j <= m <= |rest|
    decreases |rest| - j
  {
    if j == |rest| then j
    else if LimitReached(limit, |Details(rest[..j + 1], fetch)|) then j + 1
    else Processed(rest, limit, fetch, j + 1)
  }

  /** `talks[:limit]` when `limit` is set and exceeded. */
  function Trimmed(talks: seq<SchedTalk>, limit: Option<int>): seq<SchedTalk>
  {
    if limit.Some? && limit.value != 0 && |talks| > limit.value then Take(talks, limit.value) else talks
  }

  /** The detail loop of `scrape_sched_talks_async`: count the offset down
      without fetching, fetch the rest in order, keep the talks with a
      video, and stop once the limit is reached.  `requested` is the links
      whose detail pages were fetched. */
  method ScrapeDetails(links: seq<string>, offset: int, limit: Option<int>, fetch: PageFetcher)
    returns (talks: seq<SchedTalk>, ghost requested: seq<string>)
    ensures requested == Drop(links, Skip(offset))[..Processed(Drop(links, Skip(offset)), limit, fetch, 0)]
    ensures talks == Trimmed(Details(requested, fetch), limit)
  {
    var current := if offset > 0 then offset else 0;
    ghost var skip := Skip(offset);
    ghost var rest := Drop(links, skip);
    talks := [];
    requested := [];
    var i := 0;
    while i < |links|
      invariant 0 <= i <= |links|
      invariant current == if i < skip then skip - i else 0
      invariant |requested| <= |rest| && requested == rest[..|requested|]
      invariant |requested| == if i < skip then 0 else i - skip
      invariant talks == Details(requested, fetch)
      invariant Processed(rest, limit, fetch, 0) == Processed(rest, limit, fetch, |requested|)
    {
      if current > 0 {
        current := current - 1;
        i := i + 1;
        continue;
      }
      assert links[i] == rest[|requested|];
      var stop;
      talks, requested, stop := FetchNext(links[i], rest, requested, talks, limit, fetch);
      if stop {
        break;
      }
      i := i + 1;
    }
    if limit.Some? && limit.value != 0 && |talks| > limit.value {
      talks := Take(talks, limit.value);
    }
  }

  /** One fetching step of the detail loop: fetch the next link's detail
      page, keep its talk if it has one, and say whether the limit is now
      reached. */
  method FetchNext(link: string, ghost rest: seq<string>, ghost requested: seq<string>, talks: seq<SchedTalk>,
                   limit: Option<int>, fetch: PageFetcher)
    returns (more: seq<SchedTalk>, ghost fetched: seq<string>, stop: bool)
    requires |requested| < |rest| && requested == rest[..|requested|] && link == rest[|requested|]
    requires talks == Details(requested, fetch)
    ensures fetched == rest[..|requested| + 1]
    ensures more == Details(fetched, fetch)
    ensures stop == LimitReached(limit, |more|)
    ensures stop ==> Processed(rest, limit, fetch, |requested|) == |fetched|
    ensures !stop ==> Processed(rest, limit, fetch, |requested|) == Processed(rest, limit, fetch, |fetched|)
  {
    var talk := FetchTalkDetail(fetch, link);
    FetchStep(rest, |requested|, limit, fetch);
    fetched := requested + [link];
    more := talks;
    if talk.Some? {
      more := more + [talk.value];
    }
    stop := limit.Some? && limit.value != 0 && |more| >= limit.value;
  }

  /** Fetching the next link: the fetched prefix grows by it, the talks by
      its talk if it has one, and the loop goes on unless the count then
      reaches the limit. */
  lemma FetchStep(rest: seq<string>, n: nat, limit: Option<int>, fetch: PageFetcher)
    requires n < |rest|
    ensures rest[..n + 1] == rest[..n] + [rest[n]]
    ensures Details(rest[..n + 1], fetch) ==
      Details(rest[..n], fetch) + (match TalkDetailOf(fetch, rest[n]) case Some(t) => [t] case None => [])
    ensures LimitReached(limit, |Details(rest[..n + 1], fetch)|) ==> Processed(rest, limit, fetch, n) == n + 1
    ensures !LimitReached(limit, |Details(rest[..n + 1], fetch)|) ==>
      Processed(rest, limit, fetch, n) == Processed(rest, limit, fetch, n + 1)
  {
    assert rest[..n + 1] == rest[..n] + [rest[n]];
    assert rest[..n + 1][..n] == rest[..n];
  }

  /** What the scraper returns for an event URL. */
  function ScrapeOf(eventUrl: string, limit: Option<int>, offset: int, listing: ListingFetcher,
                    fetch: PageFetcher): seq<SchedTalk>
  {
    var page := NormalizeEventUrl(eventUrl);
    match listing(page)
    case ListingFailed => []
    case EventItems(hrefs) =>
      var rest := Drop(EventLinks(hrefs, page), Skip(offset));
      Trimmed(Details(rest[..Processed(rest, limit, fetch, 0)], fetch), limit)
  }

  /** `scrape_sched_talks_async`. */
  method ScrapeTalks(eventUrl: string, limit: Option<int>, offset: int, listing: ListingFetcher,
                     fetch: PageFetcher) returns (talks: seq<SchedTalk>)
    ensures talks == ScrapeOf(eventUrl, limit, offset, listing, fetch)
  {
    var page := NormalizeEventUrl(eventUrl);
    var reply := listing(page);
    if reply.ListingFailed? {
      return [];
    }
    var links := CollectEventLinks(reply.hrefs, page);
    ghost var requested;
    talks, requested := ScrapeDetails(links, offset, limit, fetch);
  }

  // ---------------------------------------------------------------------
  // Lemmas about the scraper

  /** Keeping the talks of two runs of links is keeping those of each. */
  lemma {:induction false} DetailsAppend(a: seq<string>, b: seq<string>, fetch: PageFetcher)
    ensures Details(a + b, fetch) == Details(a, fetch) + Details(b, fetch)
    decreases |b|
  {
    if b == [] {
      assert a + b == a;
    } else {
      var init := b[..|b| - 1];
      DetailsAppend(a, init, fetch);
      assert (a + b)[..|a + b| - 1] == a + init;
    }
  }

  /** Each further link adds at most one talk. */
  lemma DetailsStep(rest: seq<string>, j: nat, fetch: PageFetcher)
    requires j < |rest|
    ensures |Details(rest[..j + 1], fetch)| <= |Details(rest[..j], fetch)| + 1
  {
    assert rest[..j + 1][..j] == rest[..j];
  }

  /** Without a limit every link after the skipped ones is fetched. */
  lemma {:induction false} ProcessedAll(rest: seq<string>, limit: Option<int>, fetch: PageFetcher, j: nat)
    requires limit.None? || limit.value == 0
    requires j <= |rest|
    ensures Processed(rest, limit, fetch, j) == |rest|
    decreases |rest| - j
  {
    if j < |rest| {
      ProcessedAll(rest, limit, fetch, j + 1);
    }
  }

  /** With a positive limit not yet reached, the loop stops either at the
      end of the links or exactly when the count reaches the limit. */
  lemma {:induction false} ProcessedStops(rest: seq<string>, limit: int, fetch: PageFetcher, j: nat)
    requires limit > 0 && j <= |rest|
    requires |Details(rest[..j], fetch)| < limit
    ensures var m := Processed(rest, Some(limit), fetch, j);
      m == |rest| || |Details(rest[..m], fetch)| == limit
    decreases |rest| - j
  {
    if j < |rest| {
      DetailsStep(rest, j, fetch);
      if |Details(rest[..j + 1], fetch)| < limit {
        ProcessedStops(rest, limit, fetch, j + 1);
      }
    }
  }

  /** The talks the detail loop returns are those of all the links after
      the skipped ones, cut to a positive limit; a negative limit (which
      the pipeline never passes) leaves none. */
  lemma ScrapedWindow(rest: seq<string>, limit: Option<int>, fetch: PageFetcher)
    ensures var got := Trimmed(Details(rest[..Processed(rest, limit, fetch, 0)], fetch), limit);
      ((limit.None? || limit.value == 0) ==> got == Details(rest, fetch))
      && (limit.Some? && limit.value > 0 ==> got == Take(Details(rest, fetch), limit.value))
      && (limit.Some? && limit.value < 0 ==> got == [])
  {
    var m := Processed(rest, limit, fetch, 0);
    assert rest[..0] == [];
    if limit.None? || limit.value == 0 {
      ProcessedAll(rest, limit, fetch, 0);
      assert rest[..m] == rest;
    } else if limit.value > 0 {
      ProcessedStops(rest, limit.value, fetch, 0);
      assert rest == rest[..m] + rest[m..];
      DetailsAppend(rest[..m], rest[m..], fetch);
      if m == |rest| {
        assert rest[..m] == rest;
      }
    } else {
      if |rest| > 0 {
        assert m == 1;
        DetailsStep(rest, 0, fetch);
      }
    }
  }

  /** The scraper's result: nothing when the event page cannot be fetched;
      otherwise the talks with a video among the event links after the
      first `offset`, in page order, cut to a positive limit. */
  lemma ScrapeResult(eventUrl: string, limit: Option<int>, offset: int, listing: ListingFetcher, fetch: PageFetcher)
    requires limit.None? || limit.value > 0
    ensures var page := NormalizeEventUrl(eventUrl);
      var got := ScrapeOf(eventUrl, limit, offset, listing, fetch);
      (listing(page).ListingFailed? ==> got == [])
      && (listing(page).EventItems? ==>
            var all := Details(Drop(EventLinks(listing(page).hrefs, page), Skip(offset)), fetch);
            got == if limit.Some? then Take(all, limit.value) else all)
  {
    var page := NormalizeEventUrl(eventUrl);
    if listing(page).EventItems? {
      ScrapedWindow(Drop(EventLinks(listing(page).hrefs, page), Skip(offset)), limit, fetch);
    }
  }

  // ---------------------------------------------------------------------
  // process_sched_talks: obtaining the talks

  /** The talks the pipeline works on, whether they came from the cache,
      and the cache afterwards. */
  datatype Obtained = Obtained(talks: seq<SchedTalk>, fromCache: bool, files: Files)

  /** The limit passed to the scraper: only a positive one. */
  function FetchLimit(limit: Option<int>): (r: Option<int>)
    ensures r.Some? ==> r.value > 0
  {
    if limit.Some? && limit.value > 0 then limit else None
  }

  /** The cached talks unless a refresh is asked for; on a miss, the
      scraped ones, cached only when there are some, no refresh was asked
      for and no offset was given. */
  function ObtainedOf(files: Files, readOnly: set<string>, eventUrl: string, limit: Option<int>, refresh: bool,
                      offset: int, listing: ListingFetcher, fetch: PageFetcher): Obtained
  {
    var cached := if refresh then None else LoadSchedCache(files, eventUrl);
    if cached.Some? then Obtained(cached.value, true, files)
    else
      var talks := ScrapeOf(eventUrl, FetchLimit(limit), offset, listing, fetch);
      Obtained(talks, false,
               if talks != [] && !refresh && offset == 0
               then Stored(files, readOnly, SchedPath(eventUrl), TalkList(talks))
               else files)
  }

  method ObtainTalks(cache: CacheStore, eventUrl: string, limit: Option<int>, refresh: bool, offset: int,
                     listing: ListingFetcher, fetch: PageFetcher) returns (talks: seq<SchedTalk>, usedCache: bool)
    modifies cache
    ensures Obtained(talks, usedCache, cache.files) ==
      ObtainedOf(old(cache.files), cache.readOnly, eventUrl, limit, refresh, offset, listing, fetch)
  {
    var cached: Option<seq<SchedTalk>> := None;
    usedCache := false;
    if !refresh {
      cached := LoadSchedCache(cache.files, eventUrl);
      if cached.Some? {
        usedCache := true;
      }
    }
    if cached.Some? {
      return cached.value, usedCache;
    }
    var fetchLimit: Option<int> := None;
    if limit.Some? && limit.value > 0 {
      fetchLimit := limit;
    }
    talks := ScrapeTalks(eventUrl, fetchLimit, offset, listing, fetch);
    if talks != [] && !refresh && offset == 0 {
      SaveSchedCache(cache, eventUrl, talks);
    }
  }

  /** The window: the offset is applied to cached talks only (scraping
      has applied it already), then a positive limit. */
  function Selected(talks: seq<SchedTalk>, fromCache: bool, offset: int, limit: Option<int>): seq<SchedTalk>
  {
    var t := if fromCache && offset > 0 then Drop(talks, offset) else talks;
    if limit.Some? && limit.value > 0 && |t| > limit.value then Take(t, limit.value) else t
  }

  // ---------------------------------------------------------------------
  // process_sched_talks: records from the descriptions

  /** An optional field kept only when it is not empty. */
  function NonEmpty(o: Option<string>): (r: Option<string>)
    ensures r.Some? <==> Truthy(o)
    ensures r.Some? ==> r == o
  {
    if Truthy(o) then o else None
  }

  /** The record of a talk at a 1-based position when summarization is
      off: its description is the summary. */
  function DescriptionRecord(t: SchedTalk, index: int): TalkRecord
  {
    TalkRecord(index, t.title, t.description, Some(t.schedLink), NonEmpty(t.eventType), NonEmpty(t.deckUrl))
  }

  /** The output built from the descriptions, keyed by video URL. */
  function DescriptionsOf(talks: seq<SchedTalk>): map<string, TalkRecord>
    decreases |talks|
  {
    if talks == [] then map[]
    else
      var n := |talks|;
      DescriptionsOf(talks[..n - 1])[talks[n - 1].youtubeUrl := DescriptionRecord(talks[n - 1], n)]
  }

  method BuildFromDescriptions(talks: seq<SchedTalk>) returns (output: map<string, TalkRecord>)
    ensures output == DescriptionsOf(talks)
  {
    output := map[];
    for i := 0 to |talks|
      invariant output == DescriptionsOf(talks[..i])
    {
      assert talks[..i + 1][..i] == talks[..i];
      var talk := talks[i];
      var eventType := OrEmpty(talk.eventType);
      var deckUrl := OrEmpty(talk.deckUrl);
      var result := TalkRecord(i + 1, talk.title, talk.description, Some(talk.schedLink), None, None);
      if eventType != "" {
        result := result.(eventType := Some(eventType));
      }
      if deckUrl != "" {
        result := result.(deckUrl := Some(deckUrl));
      }
      output := output[talk.youtubeUrl := result];
    }
    assert talks[..|talks|] == talks;
  }

  /** The position of the last talk with video URL `url`, or -1. */
  function LastWithUrl(talks: seq<SchedTalk>, url: string): (k: int)
    ensures -1 <= k < |talks|
    ensures k >= 0 ==> talks[k].youtubeUrl == url && forall j :: k < j < |talks| ==> talks[j].youtubeUrl != url
    ensures k < 0 ==> forall j :: 0 <= j < |talks| ==> talks[j].youtubeUrl != url
    decreases |talks|
  {
    if talks == [] then -1
    else if talks[|talks| - 1].youtubeUrl == url then |talks| - 1
    else LastWithUrl(talks[..|talks| - 1], url)
  }

  /** The keys are exactly the talks' video URLs; under each is the record
      of the last talk with that URL: its 1-based position, its title, its
      description, its schedule link, and its event type and deck only
      when they are not empty. */
  lemma {:induction false} DescriptionsLastWins(talks: seq<SchedTalk>)
    ensures var out := DescriptionsOf(talks);
      forall url :: (url in out <==> LastWithUrl(talks, url) >= 0)
        && (url in out ==> out[url] == DescriptionRecord(talks[LastWithUrl(talks, url)], LastWithUrl(talks, url) + 1))
    decreases |talks|
  {
    if talks != [] {
      var init := talks[..|talks| - 1];
      var last := talks[|talks| - 1];
      DescriptionsLastWins(init);
      forall url | url != last.youtubeUrl
        ensures LastWithUrl(talks, url) == LastWithUrl(init, url)
        ensures LastWithUrl(init, url) >= 0 ==> talks[LastWithUrl(init, url)] == init[LastWithUrl(init, url)]
      {
      }
    }
  }

  // ---------------------------------------------------------------------
  // process_sched_talks: records from summaries

  /** The results of processing each talk's video, in order, and the
      cache afterwards. */
  datatype Results = Results(records: seq<Option<TalkRecord>>, files: Files)

  /** `process_video` over the talks, one after the other, each with its
      1-based position, its title and its schedule link, and no duration. */
  function TalkResults(files: Files, readOnly: set<string>, talks: seq<SchedTalk>, idOf: IdExtractor, e: Engine,
                       useCache: bool, proxy: bool, env: Env, transcripts: Transcripts): (r: Results)
    ensures |r.records| == |talks|
    decreases |talks|
  {
    if talks == [] then Results([], files)
    else
      var n := |talks|;
      var before := TalkResults(files, readOnly, talks[..n - 1], idOf, e, useCache, proxy, env, transcripts);
      var t := talks[n - 1];
      var run := VideoRun(before.files, readOnly, t.youtubeUrl, idOf, n, t.title, e, 0, Some(t.schedLink),
                          useCache, proxy, env, transcripts);
      Results(before.records + [run.record], run.files)
  }

  method RunTalks(cache: CacheStore, talks: seq<SchedTalk>, idOf: IdExtractor, e: Engine, useCache: bool,
                  proxy: bool, env: Env, transcripts: Transcripts) returns (records: seq<Option<TalkRecord>>)
    modifies cache
    ensures Results(records, cache.files) ==
      TalkResults(old(cache.files), cache.readOnly, talks, idOf, e, useCache, proxy, env, transcripts)
  {
    records := [];
    for i := 0 to |talks|
      invariant Results(records, cache.files) ==
        TalkResults(old(cache.files), cache.readOnly, talks[..i], idOf, e, useCache, proxy, env, transcripts)
    {
      records := RunTalk(cache, talks, i, records, old(cache.files), idOf, e, useCache, proxy, env, transcripts);
    }
    assert talks[..|talks|] == talks;
  }

  /** One talk of the loop: process its video and add the result. */
  method RunTalk(cache: CacheStore, talks: seq<SchedTalk>, i: nat, records: seq<Option<TalkRecord>>, ghost start: Files,
                 idOf: IdExtractor, e: Engine, useCache: bool, proxy: bool, env: Env, transcripts: Transcripts)
    returns (extended: seq<Option<TalkRecord>>)
    requires i < |talks|
    requires Results(records, cache.files) ==
      TalkResults(start, cache.readOnly, talks[..i], idOf, e, useCache, proxy, env, transcripts)
    modifies cache
    ensures Results(extended, cache.files) ==
      TalkResults(start, cache.readOnly, talks[..i + 1], idOf, e, useCache, proxy, env, transcripts)
  {
    assert talks[..i + 1][..i] == talks[..i];
    var talk := talks[i];
    var record := ProcessVideo(cache, talk.youtubeUrl, idOf, i + 1, talk.title, e, 0, Some(talk.schedLink),
                               useCache, proxy, env, transcripts);
    extended := records + [record];
  }

  /** A result with the talk's event type and deck attached when they are
      not empty. */
  function Attached(r: TalkRecord, t: SchedTalk): TalkRecord
  {
    var withType := if Truthy(t.eventType) then r.(eventType := t.eventType) else r;
    if Truthy(t.deckUrl) then withType.(deckUrl := t.deckUrl) else withType
  }

  /** The output built from the results, keyed by the talks' video URLs;
      a talk whose video gave no result is left out. */
  function SummarizedOutput(talks: seq<SchedTalk>, records: seq<Option<TalkRecord>>): map<string, TalkRecord>
    requires |records| == |talks|
    decreases |talks|
  {
    if talks == [] then map[]
    else
      var n := |talks|;
      var before := SummarizedOutput(talks[..n - 1], records[..n - 1]);
      match records[n - 1]
      case None => before
      case Some(r) => before[talks[n - 1].youtubeUrl := Attached(r, talks[n - 1])]
  }

  method AttachDetails(talks: seq<SchedTalk>, records: seq<Option<TalkRecord>>) returns (output: map<string, TalkRecord>)
    requires |records| == |talks|
    ensures output == SummarizedOutput(talks, records)
  {
    output := map[];
    for i := 0 to |records|
      invariant output == SummarizedOutput(talks[..i], records[..i])
    {
      assert talks[..i + 1][..i] == talks[..i];
      assert records[..i + 1][..i] == records[..i];
      if records[i].Some? {
        var result := records[i].value;
        var eventType := OrEmpty(talks[i].eventType);
        var deckUrl := OrEmpty(talks[i].deckUrl);
        if eventType != "" {
          result := result.(eventType := Some(eventType));
        }
        if deckUrl != "" {
          result := result.(deckUrl := Some(deckUrl));
        }
        output := output[talks[i].youtubeUrl := result];
      }
    }
    assert talks[..|talks|] == talks;
    assert records[..|records|] == records;
  }

  // ---------------------------------------------------------------------
  // process_sched_talks

  datatype SchedStep = SchedStep(output: map<string, TalkRecord>, files: Files)

  /** The output for the selected talks: from the descriptions, or from
      processing each talk's video. */
  function RecordsFor(files: Files, readOnly: set<string>, talks: seq<SchedTalk>, idOf: IdExtractor, e: Engine,
                      summarize: bool, useCache: bool, proxy: bool, env: Env, transcripts: Transcripts): SchedStep
  {
    if !summarize then SchedStep(DescriptionsOf(talks), files)
    else
      var results := TalkResults(files, readOnly, talks, idOf, e, useCache, proxy, env, transcripts);
      SchedStep(SummarizedOutput(talks, results.records), results.files)
  }

  /** `process_sched_talks` on the cache `files`. */
  function SchedRun(files: Files, readOnly: set<string>, eventUrl: string, e: Engine, limit: Option<int>,
                    refresh: bool, summarize: bool, offset: int, useCache: bool, proxy: bool, env: Env,
                    listing: ListingFetcher, fetch: PageFetcher, transcripts: Transcripts): SchedStep
  {
    var got := ObtainedOf(files, readOnly, eventUrl, limit, refresh, offset, listing, fetch);
    if got.talks == [] then SchedStep(map[], got.files)
    else RecordsFor(got.files, readOnly, Selected(got.talks, got.fromCache, offset, limit), ExtractVideoId, e,
                    summarize, useCache, proxy, env, transcripts)
  }

  method SelectTalks(talks: seq<SchedTalk>, usedCache: bool, offset: int, limit: Option<int>)
    returns (window: seq<SchedTalk>)
    ensures window == Selected(talks, usedCache, offset, limit)
  {
    window := talks;
    if usedCache && offset > 0 {
      window := Drop(window, offset);
    }
    if limit.Some? && limit.value > 0 && |window| > limit.value {
      window := Take(window, limit.value);
    }
  }

  method BuildRecords(cache: CacheStore, talks: seq<SchedTalk>, idOf: IdExtractor, e: Engine, summarize: bool,
                      useCache: bool, proxy: bool, env: Env, transcripts: Transcripts)
    returns (output: map<string, TalkRecord>)
    modifies cache
    ensures SchedStep(output, cache.files) ==
      RecordsFor(old(cache.files), cache.readOnly, talks, idOf, e, summarize, useCache, proxy, env, transcripts)
  {
    if !summarize {
      output := BuildFromDescriptions(talks);
      return;
    }
    var records := RunTalks(cache, talks, idOf, e, useCache, proxy, env, transcripts);
    output := AttachDetails(talks, records);
  }

  method ProcessSchedTalks(cache: CacheStore, eventUrl: string, e: Engine, limit: Option<int>, refresh: bool,
                           summarize: bool, offset: int, useCache: bool, proxy: bool, env: Env,
                           listing: ListingFetcher, fetch: PageFetcher, transcripts: Transcripts)
    returns (output: map<string, TalkRecord>)
    modifies cache
    ensures SchedStep(output, cache.files) ==
      SchedRun(old(cache.files), cache.readOnly, eventUrl, e, limit, refresh, summarize, offset, useCache,
               proxy, env, listing, fetch, transcripts)
  {
    var talks, usedCache := ObtainTalks(cache, eventUrl, limit, refresh, offset, listing, fetch);
    if talks == [] {
      return map[];
    }
    talks := SelectTalks(talks, usedCache, offset, limit);
    output := BuildRecords(cache, talks, ExtractVideoId, e, summarize, useCache, proxy, env, transcripts);
  }

  // ---------------------------------------------------------------------
  // Lemmas about process_sched_talks

  /** The cache is written only after a scrape that found talks, with no
      refresh asked for and no offset, and then holds exactly those talks,
      scraped from the first link on. */
  lemma CacheWrittenOnlyUnoffset(files: Files, readOnly: set<string>, eventUrl: string, limit: Option<int>,
                                 refresh: bool, offset: int, listing: ListingFetcher, fetch: PageFetcher)
    ensures var got := ObtainedOf(files, readOnly, eventUrl, limit, refresh, offset, listing, fetch);
      got.files == files
      || (!got.fromCache && got.talks != [] && !refresh && offset == 0
          && got.talks == ScrapeOf(eventUrl, FetchLimit(limit), 0, listing, fetch)
          && got.files == Stored(files, readOnly, SchedPath(eventUrl), TalkList(got.talks)))
  {
  }

  /** Talks loaded from the cache are cut to `[offset:][:limit]`. */
  lemma CachedWindow(talks: seq<SchedTalk>, offset: int, limit: int)
    requires limit > 0
    ensures Selected(talks, true, offset, Some(limit)) == Take(Drop(talks, Skip(offset)), limit)
    ensures Selected(talks, true, offset, None) == Drop(talks, Skip(offset))
  {
  }

  /** Freshly scraped talks are not offset a second time: the window is
      the talks with a video among the event links after the first
      `offset`, cut to a positive limit. */
  lemma FreshWindow(files: Files, readOnly: set<string>, eventUrl: string, limit: Option<int>, refresh: bool,
                    offset: int, listing: ListingFetcher, fetch: PageFetcher)
    requires !ObtainedOf(files, readOnly, eventUrl, limit, refresh, offset, listing, fetch).fromCache
    requires listing(NormalizeEventUrl(eventUrl)).EventItems?
    ensures var got := ObtainedOf(files, readOnly, eventUrl, limit, refresh, offset, listing, fetch);
      var page := NormalizeEventUrl(eventUrl);
      var all := Details(Drop(EventLinks(listing(page).hrefs, page), Skip(offset)), fetch);
      Selected(got.talks, false, offset, limit) == if limit.Some? && limit.value > 0 then Take(all, limit.value) else all
  {
    ScrapeResult(eventUrl, FetchLimit(limit), offset, listing, fetch);
  }

  /** A run served from the cache issues no request: its result does not
      depend on the event page or the detail pages, and, without
      summarization, it writes nothing. */
  lemma CachedRunFetchesNothing(files: Files, readOnly: set<string>, eventUrl: string, e: Engine, limit: Option<int>,
                                summarize: bool, offset: int, useCache: bool, proxy: bool, env: Env,
                                listing1: ListingFetcher, fetch1: PageFetcher,
                                listing2: ListingFetcher, fetch2: PageFetcher, transcripts: Transcripts)
    requires LoadSchedCache(files, eventUrl).Some?
    ensures SchedRun(files, readOnly, eventUrl, e, limit, false, summarize, offset, useCache, proxy, env, listing1, fetch1, transcripts)
         == SchedRun(files, readOnly, eventUrl, e, limit, false, summarize, offset, useCache, proxy, env, listing2, fetch2, transcripts)
    ensures !summarize ==>
      SchedRun(files, readOnly, eventUrl, e, limit, false, summarize, offset, useCache, proxy, env, listing1, fetch1, transcripts).files == files
  {
  }

  /** Processing the talks on two caches that agree off a path the video
      steps never touch yields the same results, leaves caches that still
      agree off it, and does not write it. */
  lemma {:induction false} TalkResultsAgree(f: Files, g: Files, readOnly: set<string>, path: string, talks: seq<SchedTalk>,
                                            idOf: IdExtractor, e: Engine, useCache: bool, proxy: bool, env: Env,
                                            transcripts: Transcripts)
    requires AgreeOff(f, g, path) && Untouched(path, e.summarizer)
    ensures var p := TalkResults(f, readOnly, talks, idOf, e, useCache, proxy, env, transcripts);
      var q := TalkResults(g, readOnly, talks, idOf, e, useCache, proxy, env, transcripts);
      p.records == q.records && AgreeOff(p.files, q.files, path) && SameAt(p.files, f, path)
    decreases |talks|
  {
    if talks != [] {
      var n := |talks|;
      var t := talks[n - 1];
      TalkResultsAgree(f, g, readOnly, path, talks[..n - 1], idOf, e, useCache, proxy, env, transcripts);
      var p := TalkResults(f, readOnly, talks[..n - 1], idOf, e, useCache, proxy, env, transcripts);
      var q := TalkResults(g, readOnly, talks[..n - 1], idOf, e, useCache, proxy, env, transcripts);
      VideoRunAgree(p.files, q.files, readOnly, path, t.youtubeUrl, idOf, n, t.title, e, 0, Some(t.schedLink),
                    useCache, proxy, env, transcripts);
    }
  }

  /** Building the records on two caches that agree off a path the video
      steps never touch gives the same output and writes neither copy of
      that path. */
  lemma RecordsForAgree(f: Files, g: Files, readOnly: set<string>, path: string, talks: seq<SchedTalk>, idOf: IdExtractor,
                        e: Engine, summarize: bool, useCache: bool, proxy: bool, env: Env, transcripts: Transcripts)
    requires AgreeOff(f, g, path) && Untouched(path, e.summarizer)
    ensures var p := RecordsFor(f, readOnly, talks, idOf, e, summarize, useCache, proxy, env, transcripts);
      var q := RecordsFor(g, readOnly, talks, idOf, e, summarize, useCache, proxy, env, transcripts);
      p.output == q.output && AgreeOff(p.files, q.files, path) && SameAt(p.files, f, path) && SameAt(q.files, g, path)
  {
    if summarize {
      TalkResultsAgree(f, g, readOnly, path, talks, idOf, e, useCache, proxy, env, transcripts);
      forall k | k != path ensures SameAt(g, f, k) { assert SameAt(f, g, k); }
      TalkResultsAgree(g, f, readOnly, path, talks, idOf, e, useCache, proxy, env, transcripts);
    }
  }

  /** A refresh never reads or writes the schedule cache: two caches that
      differ at most in the event's schedule file give the same output,
      afterwards still differ at most there, and each keeps its own
      schedule file as it was. */
  lemma RefreshIgnoresCachedSchedule(f: Files, g: Files, readOnly: set<string>, eventUrl: string, e: Engine,
                                     limit: Option<int>, summarize: bool, offset: int, useCache: bool, proxy: bool,
                                     env: Env, listing: ListingFetcher, fetch: PageFetcher, transcripts: Transcripts)
    requires AgreeOff(f, g, SchedPath(eventUrl))
    ensures var p := SchedRun(f, readOnly, eventUrl, e, limit, true, summarize, offset, useCache, proxy, env, listing, fetch, transcripts);
      var q := SchedRun(g, readOnly, eventUrl, e, limit, true, summarize, offset, useCache, proxy, env, listing, fetch, transcripts);
      p.output == q.output && AgreeOff(p.files, q.files, SchedPath(eventUrl))
      && SameAt(p.files, f, SchedPath(eventUrl)) && SameAt(q.files, g, SchedPath(eventUrl))
  {
    var path := SchedPath(eventUrl);
    var talks := ScrapeOf(eventUrl, FetchLimit(limit), offset, listing, fetch);
    assert ObtainedOf(f, readOnly, eventUrl, limit, true, offset, listing, fetch) == Obtained(talks, false, f);
    assert ObtainedOf(g, readOnly, eventUrl, limit, true, offset, listing, fetch) == Obtained(talks, false, g);
    if talks != [] {
      forall id ensures path != SubtitlePath(id) && path != SummaryPath(id, e.summarizer) {
        SchedPathDisjoint(eventUrl, x => x, "", id, id, e.summarizer);
      }
      RecordsForAgree(f, g, readOnly, path, Selected(talks, false, offset, limit), ExtractVideoId, e, summarize,
                      useCache, proxy, env, transcripts);
    }
  }

  /** With summarization off, the keys are exactly the window's video URLs
      and each record is that of the last talk with the URL (see
      `DescriptionsLastWins`); nothing but the schedule cache is written. */
  lemma RecordsFromDescriptions(files: Files, readOnly: set<string>, talks: seq<SchedTalk>, idOf: IdExtractor,
                                e: Engine, useCache: bool, proxy: bool, env: Env, transcripts: Transcripts)
    ensures var out := RecordsFor(files, readOnly, talks, idOf, e, false, useCache, proxy, env, transcripts).output;
      forall url :: (url in out <==> LastWithUrl(talks, url) >= 0)
        && (url in out ==> FromDescription(out[url], talks[LastWithUrl(talks, url)], LastWithUrl(talks, url) + 1))
  {
    DescriptionsLastWins(talks);
  }

  /** A record built from a talk's description: position, title,
      description, schedule link, and the event type and deck only when
      they are not empty. */
  predicate FromDescription(r: TalkRecord, t: SchedTalk, index: int) {
    r.index == index && r.title == t.title && r.summary == t.description && r.schedLink == Some(t.schedLink)
    && (r.eventType.Some? <==> Truthy(t.eventType)) && (r.eventType.Some? ==> r.eventType == t.eventType)
    && (r.deckUrl.Some? <==> Truthy(t.deckUrl)) && (r.deckUrl.Some? ==> r.deckUrl == t.deckUrl)
  }

  /** What processing a talk's video gives: its position and title, its
      schedule link when that is not empty, and no event type or deck. */
  predicate ResultOf(r: TalkRecord, t: SchedTalk, index: int) {
    r.index == index && r.title == t.title
    && (r.schedLink.Some? <==> t.schedLink != "") && (r.schedLink.Some? ==> r.schedLink.value == t.schedLink)
    && r.eventType.None? && r.deckUrl.None?
  }

  /** The result of a talk's video at a position: present exactly when an
      ID extracts from the URL, and then as `ResultOf` says. */
  predicate ResultFor(o: Option<TalkRecord>, t: SchedTalk, idOf: IdExtractor, index: int) {
    (o.Some? <==> idOf(t.youtubeUrl).Ok?) && (o.Some? ==> ResultOf(o.value, t, index))
  }

  /** Each talk gives a result exactly when an ID extracts from its video
      URL (a talk has no duration, so none is skipped as short). */
  lemma {:induction false} TalkResultsShape(files: Files, readOnly: set<string>, talks: seq<SchedTalk>,
                                            idOf: IdExtractor, e: Engine, useCache: bool, proxy: bool, env: Env,
                                            transcripts: Transcripts)
    ensures var rs := TalkResults(files, readOnly, talks, idOf, e, useCache, proxy, env, transcripts).records;
      forall k :: 0 <= k < |talks| ==> ResultFor(rs[k], talks[k], idOf, k + 1)
    decreases |talks|
  {
    if talks != [] {
      var n := |talks|;
      var init := talks[..n - 1];
      var before := TalkResults(files, readOnly, init, idOf, e, useCache, proxy, env, transcripts);
      var t := talks[n - 1];
      var run := VideoRun(before.files, readOnly, t.youtubeUrl, idOf, n, t.title, e, 0, Some(t.schedLink),
                          useCache, proxy, env, transcripts);
      TalkResultsShape(files, readOnly, init, idOf, e, useCache, proxy, env, transcripts);
      TalkResult(before.files, readOnly, t, idOf, n, e, useCache, proxy, env, transcripts);
      var rs := TalkResults(files, readOnly, talks, idOf, e, useCache, proxy, env, transcripts).records;
      assert rs == before.records + [run.record];
      forall k | 0 <= k < n ensures ResultFor(rs[k], talks[k], idOf, k + 1) {
        if k < n - 1 {
          assert rs[k] == before.records[k] && talks[k] == init[k];
        }
      }
    }
  }

  lemma TalkResult(files: Files, readOnly: set<string>, t: SchedTalk, idOf: IdExtractor, index: int, e: Engine,
                   useCache: bool, proxy: bool, env: Env, transcripts: Transcripts)
    ensures ResultFor(VideoRun(files, readOnly, t.youtubeUrl, idOf, index, t.title, e, 0, Some(t.schedLink),
                               useCache, proxy, env, transcripts).record, t, idOf, index)
  {
    VideoRunRecord(files, readOnly, t.youtubeUrl, idOf, index, t.title, e, 0, Some(t.schedLink), useCache, proxy, env, transcripts);
  }

  /** The keys are the talks' video URLs from which an ID extracts; under
      each is the result of the last talk with that URL, with the talk's
      event type and deck attached when they are not empty. */
  lemma {:induction false} SummarizedLastWins(talks: seq<SchedTalk>, records: seq<Option<TalkRecord>>, idOf: IdExtractor)
    requires |records| == |talks|
    requires forall k :: 0 <= k < |talks| ==> ResultFor(records[k], talks[k], idOf, k + 1)
    ensures var out := SummarizedOutput(talks, records);
      forall url :: (url in out <==> LastWithUrl(talks, url) >= 0 && idOf(url).Ok?)
        && (url in out ==>
              records[LastWithUrl(talks, url)].Some?
              && out[url] == Attached(records[LastWithUrl(talks, url)].value, talks[LastWithUrl(talks, url)]))
    decreases |talks|
  {
    if talks != [] {
      var n := |talks|;
      var init := talks[..n - 1];
      var last := talks[n - 1];
      SummarizedLastWins(init, records[..n - 1], idOf);
      forall url | url != last.youtubeUrl
        ensures LastWithUrl(talks, url) == LastWithUrl(init, url)
        ensures LastWithUrl(init, url) >= 0 ==> talks[LastWithUrl(init, url)] == init[LastWithUrl(init, url)]
        ensures LastWithUrl(init, url) >= 0 ==> records[LastWithUrl(init, url)] == records[..n - 1][LastWithUrl(init, url)]
      {
      }
    }
  }

  /** The keys of `out` are exactly the talks' video URLs that yield an ID,
      and each record is built from the last talk with that URL. */
  ghost predicate SummaryShaped(out: map<string, TalkRecord>, talks: seq<SchedTalk>, idOf: IdExtractor) {
    forall url :: (url in out <==> LastWithUrl(talks, url) >= 0 && idOf(url).Ok?)
      && (url in out ==> FromSummary(out[url], talks[LastWithUrl(talks, url)], LastWithUrl(talks, url) + 1))
  }

  /** With summarization on, the keys are exactly the window's video URLs
      that yield an ID, and each record is built from the last talk with
      that URL: its position, title, schedule link when not empty, and
      its event type and deck only when they are not empty. */
  lemma RecordsFromSummaries(files: Files, readOnly: set<string>, talks: seq<SchedTalk>, idOf: IdExtractor,
                             e: Engine, useCache: bool, proxy: bool, env: Env, transcripts: Transcripts)
    ensures SummaryShaped(RecordsFor(files, readOnly, talks, idOf, e, true, useCache, proxy, env, transcripts).output,
                          talks, idOf)
  {
    var rs := TalkResults(files, readOnly, talks, idOf, e, useCache, proxy, env, transcripts).records;
    TalkResultsShape(files, readOnly, talks, idOf, e, useCache, proxy, env, transcripts);
    SummarizedRecords(talks, rs, idOf);
  }

  lemma SummarizedRecords(talks: seq<SchedTalk>, records: seq<Option<TalkRecord>>, idOf: IdExtractor)
    requires |records| == |talks|
    requires forall k :: 0 <= k < |talks| ==> ResultFor(records[k], talks[k], idOf, k + 1)
    ensures SummaryShaped(SummarizedOutput(talks, records), talks, idOf)
  {
    SummarizedLastWins(talks, records, idOf);
    var out := SummarizedOutput(talks, records);
    forall url | url in out
      ensures FromSummary(out[url], talks[LastWithUrl(talks, url)], LastWithUrl(talks, url) + 1)
    {
      var k := LastWithUrl(talks, url);
      AttachedFromSummary(records[k].value, talks[k], k + 1);
    }
  }

  lemma AttachedFromSummary(r: TalkRecord, t: SchedTalk, index: int)
    requires ResultOf(r, t, index)
    ensures FromSummary(Attached(r, t), t, index)
  {
  }

  /** A record built from a talk's video: position, title, schedule link
      when not empty, and event type and deck only when not empty. */
  predicate FromSummary(r: TalkRecord, t: SchedTalk, index: int) {
    r.index == index && r.title == t.title
    && (r.schedLink.Some? <==> t.schedLink != "") && (r.schedLink.Some? ==> r.schedLink.value == t.schedLink)
    && (r.eventType.Some? <==> Truthy(t.eventType)) && (r.eventType.Some? ==> r.eventType == t.eventType)
    && (r.deckUrl.Some? <==> Truthy(t.deckUrl)) && (r.deckUrl.Some? ==> r.deckUrl == t.deckUrl)
  }
}
