/** One video through the playlist pipeline's stages: its subtitles (from
    the cache, or downloaded and cached), its summary (from the cache, or
    generated and cached, or blank) and `process_video`, which the schedule
    pipeline runs for every talk. */
module Videos {
  import opened Common
  import opened Text
  import opened Summarizers
  import opened Cache
  import opened CoreCache
  import opened VideoIds

  // ---------------------------------------------------------------------
  // Subtitles

  /** What fetching a video's English transcript yields: the texts of its
      snippets, or an error (no transcript, network failure, blocked IP). */
  datatype TranscriptReply = Transcript(texts: seq<string>) | TranscriptFailed

  /** The transcript service, as an oracle: the reply for a video ID, asked
      directly or through the Webshare proxy. */
  type Transcripts = (string, bool) -> TranscriptReply

  /** The proxy is used only when asked for and both Webshare credentials
      are set and non-empty; otherwise the download goes direct. */
  predicate UsesProxy(proxy: bool, env: Env) {
    proxy && Truthy(EnvGet(env, "WEBSHARE_USERNAME")) && Truthy(EnvGet(env, "WEBSHARE_PASSWORD"))
  }

  /** The subtitles a download yields: the snippet texts joined by single
      spaces, or nothing when the fetch failed. */
  function Fetched(videoId: string, proxy: bool, env: Env, transcripts: Transcripts): Option<string>
  {
    match transcripts(videoId, UsesProxy(proxy, env))
    case Transcript(texts) => Some(Join(texts, " "))
    case TranscriptFailed => None
  }

  /** `_download_subtitles_sync`: the cached subtitles when there are any
      (even empty ones), else the downloaded ones. */
  function SubtitlesOf(files: Files, videoId: string, proxy: bool, env: Env, transcripts: Transcripts): (r: Option<string>)
    ensures LoadSubtitles(files, videoId).Some? ==> r == LoadSubtitles(files, videoId)
    ensures LoadSubtitles(files, videoId).None? ==> r == Fetched(videoId, proxy, env, transcripts)
  {
    match LoadSubtitles(files, videoId)
    case Some(text) => Some(text)
    case None => Fetched(videoId, proxy, env, transcripts)
  }

  /** The cache after a download: the downloaded subtitles are saved; a
      cache hit or a failed download writes nothing. */
  function FilesAfterSubtitles(files: Files, readOnly: set<string>, videoId: string, proxy: bool, env: Env,
                               transcripts: Transcripts): Files
  {
    if LoadSubtitles(files, videoId).None? && Fetched(videoId, proxy, env, transcripts).Some?
    then Stored(files, readOnly, SubtitlePath(videoId), TextFile(Fetched(videoId, proxy, env, transcripts).value))
    else files
  }

  method DownloadSubtitles(cache: CacheStore, videoId: string, proxy: bool, env: Env, transcripts: Transcripts)
    returns (subtitles: Option<string>)
    modifies cache
    ensures subtitles == SubtitlesOf(old(cache.files), videoId, proxy, env, transcripts)
    ensures cache.files == FilesAfterSubtitles(old(cache.files), cache.readOnly, videoId, proxy, env, transcripts)
  {
    var cached := LoadSubtitles(cache.files, videoId);
    if cached.Some? {
      return cached;
    }
    var viaProxy := proxy && Truthy(EnvGet(env, "WEBSHARE_USERNAME")) && Truthy(EnvGet(env, "WEBSHARE_PASSWORD"));
    match transcripts(videoId, viaProxy)
    case Transcript(texts) =>
      var text := Join(texts, " ");
      SaveSubtitles(cache, videoId, text);
      subtitles := Some(text);
    case TranscriptFailed =>
      subtitles := None;
  }

  /** A second download of the same video finds the first one's result in
      the cache: it returns the same subtitles and writes nothing. */
  lemma SubtitlesSettle(files: Files, readOnly: set<string>, videoId: string, proxy: bool, env: Env,
                        transcripts: Transcripts, proxy2: bool, env2: Env, transcripts2: Transcripts)
    requires SubtitlePath(videoId) !in readOnly
    requires SubtitlesOf(files, videoId, proxy, env, transcripts).Some?
    ensures var f := FilesAfterSubtitles(files, readOnly, videoId, proxy, env, transcripts);
      SubtitlesOf(f, videoId, proxy2, env2, transcripts2) == SubtitlesOf(files, videoId, proxy, env, transcripts)
      && FilesAfterSubtitles(f, readOnly, videoId, proxy2, env2, transcripts2) == f
  {
    if LoadSubtitles(files, videoId).None? {
      SubtitleRoundTrip(files, readOnly, videoId, Fetched(videoId, proxy, env, transcripts).value);
    }
  }

  /** A download touches only that video's subtitle file. */
  lemma SubtitlesWriteOnlyTheirFile(files: Files, readOnly: set<string>, videoId: string, proxy: bool, env: Env,
                                    transcripts: Transcripts, path: string)
    requires path != SubtitlePath(videoId)
    ensures var f := FilesAfterSubtitles(files, readOnly, videoId, proxy, env, transcripts);
      (path in f <==> path in files) && (path in files ==> f[path] == files[path])
  {
  }

  // ---------------------------------------------------------------------
  // Summaries

  /** A summarizer as the pipelines use it: the strategy, which names its
      summary cache files, and its `summarize(text, title)` call. */
  datatype Engine = Engine(summarizer: Summarizer, summarize: (string, string) -> string)

  /** The engine of a strategy talking to the given clients: its
      `summarize` is `Summarizers.SummaryOf`, which `Summarizers.Summarize`
      computes. */
  function EngineOf(s: Summarizer, b: Backend): (e: Engine)
    ensures e.summarizer == s
    ensures forall text, title :: e.summarize(text, title) == SummaryOf(s, text, title, b)
  {
    Engine(s, (text, title) => SummaryOf(s, text, title, b))
  }

  /** The summary a video gets: a cached one when the summary cache is in
      use and holds one (even without subtitles); otherwise one generated
      from the subtitles; otherwise, with no subtitles, a blank one. */
  function SummaryFor(files: Files, e: Engine, videoId: string, subtitles: string, title: string,
                      useCache: bool): string
  {
    var cached := if useCache then LoadSummary(files, videoId, e.summarizer) else None;
    if cached.Some? then cached.value
    else if subtitles != "" then e.summarize(subtitles, title)
    else ""
  }

  /** Does the summary step generate (and save) a new summary? */
  predicate Generates(files: Files, s: Summarizer, videoId: string, subtitles: string, useCache: bool) {
    !(useCache && LoadSummary(files, videoId, s).Some?) && subtitles != ""
  }

  /** The cache after the summary step: a generated summary is saved. */
  function FilesAfterSummary(files: Files, readOnly: set<string>, e: Engine, videoId: string,
                             subtitles: string, title: string, useCache: bool): Files
  {
    if Generates(files, e.summarizer, videoId, subtitles, useCache)
    then Stored(files, readOnly, SummaryPath(videoId, e.summarizer), TextFile(e.summarize(subtitles, title)))
    else files
  }

  method ObtainSummary(cache: CacheStore, e: Engine, videoId: string, subtitles: string, title: string,
                       useCache: bool) returns (summary: string)
    modifies cache
    ensures summary == SummaryFor(old(cache.files), e, videoId, subtitles, title, useCache)
    ensures cache.files == FilesAfterSummary(old(cache.files), cache.readOnly, e, videoId, subtitles, title, useCache)
  {
    var cached: Option<string> := None;
    if useCache {
      cached := LoadSummary(cache.files, videoId, e.summarizer);
    }
    if cached.Some? {
      summary := cached.value;
    } else if subtitles != "" {
      summary := e.summarize(subtitles, title);
      SaveSummary(cache, videoId, e.summarizer, summary);
    } else {
      summary := "";
    }
  }

  /** The three ways a summary comes about.  A cached summary is reused
      only when the cache is in use; one is generated exactly when there is
      no reused summary and there are subtitles; a blank summary with
      subtitles present can only come from the cache or the summarizer. */
  lemma SummarySources(files: Files, e: Engine, videoId: string, subtitles: string, title: string,
                       useCache: bool)
    ensures var r := SummaryFor(files, e, videoId, subtitles, title, useCache);
      (useCache && LoadSummary(files, videoId, e.summarizer).Some? ==> r == LoadSummary(files, videoId, e.summarizer).value)
      && (Generates(files, e.summarizer, videoId, subtitles, useCache) ==> r == e.summarize(subtitles, title))
      && (!useCache && subtitles == "" ==> r == "")
      && (r != "" ==> (useCache && LoadSummary(files, videoId, e.summarizer) == Some(r)) || Generates(files, e.summarizer, videoId, subtitles, useCache))
  {
  }

  /** After the summary step, the summary it gave is in the cache whenever
      it came from the cache or was generated (and the file is writable),
      so a later run that uses the cache gives the same summary, even with
      other subtitles or none, and writes nothing. */
  lemma SummarySettles(files: Files, readOnly: set<string>, e: Engine, videoId: string,
                       subtitles: string, title: string, useCache: bool, subtitles2: string, title2: string)
    requires SummaryPath(videoId, e.summarizer) !in readOnly
    requires subtitles != "" || (useCache && LoadSummary(files, videoId, e.summarizer).Some?)
    ensures var f := FilesAfterSummary(files, readOnly, e, videoId, subtitles, title, useCache);
      var r := SummaryFor(files, e, videoId, subtitles, title, useCache);
      LoadSummary(f, videoId, e.summarizer) == Some(r)
      && SummaryFor(f, e, videoId, subtitles2, title2, true) == r
      && FilesAfterSummary(f, readOnly, e, videoId, subtitles2, title2, true) == f
  {
    if Generates(files, e.summarizer, videoId, subtitles, useCache) {
      SummaryRoundTrip(files, readOnly, videoId, e.summarizer, e.summarizer, e.summarize(subtitles, title));
    }
  }

  /** The summary step touches only that video's summary file for this
      summarizer. */
  lemma SummaryWritesOnlyItsFile(files: Files, readOnly: set<string>, e: Engine, videoId: string,
                                 subtitles: string, title: string, useCache: bool, path: string)
    requires path != SummaryPath(videoId, e.summarizer)
    ensures var f := FilesAfterSummary(files, readOnly, e, videoId, subtitles, title, useCache);
      (path in f <==> path in files) && (path in files ==> f[path] == files[path])
  {
  }

  // ---------------------------------------------------------------------
  // process_video

  /** Videos shorter than two minutes (with a known, positive duration)
      are skipped. */
  predicate IsShort(duration: int) {
    0 < duration && duration < 120
  }

  /** What processing one video returns and the cache afterwards. */
  datatype VideoStep = VideoStep(record: Option<TalkRecord>, files: Files)

  /** `process_video`: skip a short video or one whose URL yields no ID;
      otherwise get its subtitles, then its summary, and return the record
      with the schedule link when one is given. */
  function VideoRun(files: Files, readOnly: set<string>, videoUrl: string, idOf: IdExtractor, index: int, title: string, e: Engine,
                    duration: int, schedLink: Option<string>, useCache: bool, proxy: bool, env: Env,
                    transcripts: Transcripts): VideoStep
  {
    if IsShort(duration) then VideoStep(None, files)
    else match idOf(videoUrl)
      case Err(_) => VideoStep(None, files)
      case Ok(id) =>
        var subtitles := OrEmpty(SubtitlesOf(files, id, proxy, env, transcripts));
        var f1 := FilesAfterSubtitles(files, readOnly, id, proxy, env, transcripts);
        var summary := SummaryFor(f1, e, id, subtitles, title, useCache);
        var f2 := FilesAfterSummary(f1, readOnly, e, id, subtitles, title, useCache);
        VideoStep(Some(TalkRecord(index, title, summary, if Truthy(schedLink) then schedLink else None, None, None)), f2)
  }

  method ProcessVideo(cache: CacheStore, videoUrl: string, idOf: IdExtractor, index: int, title: string, e: Engine,
                      duration: int, schedLink: Option<string>, useCache: bool, proxy: bool, env: Env,
                      transcripts: Transcripts) returns (record: Option<TalkRecord>)
    modifies cache
    ensures VideoStep(record, cache.files) ==
      VideoRun(old(cache.files), cache.readOnly, videoUrl, idOf, index, title, e, duration, schedLink, useCache, proxy, env, transcripts)
  {
    if 0 < duration && duration < 120 {
      return None;
    }
    var found := idOf(videoUrl);
    if found.Err? {
      return None;
    }
    var videoId := found.value;
    var subtitles := DownloadSubtitles(cache, videoId, proxy, env, transcripts);
    var summary := ObtainSummary(cache, e, videoId, OrEmpty(subtitles), title, useCache);
    var link: Option<string> := None;
    if schedLink.Some? && schedLink.value != "" {
      link := schedLink;
    }
    record := Some(TalkRecord(index, title, summary, link, None, None));
  }

  /** A video yields a record exactly when it is not short and its URL
      yields an ID; the record carries the given index and title, a
      non-empty schedule link or none, and no event type or deck. */
  lemma VideoRunRecord(files: Files, readOnly: set<string>, videoUrl: string, idOf: IdExtractor, index: int, title: string,
                       e: Engine, duration: int, schedLink: Option<string>, useCache: bool,
                       proxy: bool, env: Env, transcripts: Transcripts)
    ensures var run := VideoRun(files, readOnly, videoUrl, idOf, index, title, e, duration, schedLink, useCache, proxy, env, transcripts);
      (run.record.Some? <==> !IsShort(duration) && idOf(videoUrl).Ok?)
      && (run.record.None? ==> run.files == files)
      && (run.record.Some? ==>
            run.record.value.index == index && run.record.value.title == title
            && (run.record.value.schedLink.Some? <==> Truthy(schedLink))
            && (run.record.value.schedLink.Some? ==> run.record.value.schedLink == schedLink)
            && run.record.value.eventType.None? && run.record.value.deckUrl.None?)
  {
  }

  /** With no subtitles to be had and no summary to reuse, the video is
      still listed, with a blank summary, and nothing is written. */
  lemma NoSubtitlesBlankSummary(files: Files, readOnly: set<string>, videoUrl: string, idOf: IdExtractor, index: int, title: string,
                                e: Engine, duration: int, schedLink: Option<string>, proxy: bool,
                                env: Env, transcripts: Transcripts)
    requires !IsShort(duration) && idOf(videoUrl).Ok?
    requires var id := idOf(videoUrl).value;
      LoadSubtitles(files, id).None? && transcripts(id, UsesProxy(proxy, env)).TranscriptFailed?
    ensures var run := VideoRun(files, readOnly, videoUrl, idOf, index, title, e, duration, schedLink, false, proxy, env, transcripts);
      run.record.Some? && run.record.value.summary == "" && run.files == files
  {
  }

  // ---------------------------------------------------------------------
  // What the steps read

  /** A path the video steps never read or write: no subtitle file and no
      summary file of this summarizer. */
  ghost predicate Untouched(path: string, s: Summarizer) {
    forall id :: path != SubtitlePath(id) && path != SummaryPath(id, s)
  }

  /** The subtitle step reads and writes only the video's subtitle file:
      on two caches that agree off some other path it yields the same
      subtitles and leaves caches that still agree off that path. */
  lemma SubtitlesAgree(f: Files, g: Files, readOnly: set<string>, path: string, videoId: string, proxy: bool, env: Env,
                       transcripts: Transcripts)
    requires AgreeOff(f, g, path) && path != SubtitlePath(videoId)
    ensures SubtitlesOf(f, videoId, proxy, env, transcripts) == SubtitlesOf(g, videoId, proxy, env, transcripts)
    ensures AgreeOff(FilesAfterSubtitles(f, readOnly, videoId, proxy, env, transcripts),
                     FilesAfterSubtitles(g, readOnly, videoId, proxy, env, transcripts), path)
  {
    assert SameAt(f, g, SubtitlePath(videoId));
    match Fetched(videoId, proxy, env, transcripts)
    case Some(text) => StoredAgreeOff(f, g, readOnly, path, SubtitlePath(videoId), TextFile(text));
    case None =>
  }

  /** The summary step reads and writes only the video's summary file for
      this summarizer. */
  lemma SummaryAgree(f: Files, g: Files, readOnly: set<string>, path: string, e: Engine, videoId: string,
                     subtitles: string, title: string, useCache: bool)
    requires AgreeOff(f, g, path) && path != SummaryPath(videoId, e.summarizer)
    ensures SummaryFor(f, e, videoId, subtitles, title, useCache) == SummaryFor(g, e, videoId, subtitles, title, useCache)
    ensures AgreeOff(FilesAfterSummary(f, readOnly, e, videoId, subtitles, title, useCache),
                     FilesAfterSummary(g, readOnly, e, videoId, subtitles, title, useCache), path)
  {
    assert SameAt(f, g, SummaryPath(videoId, e.summarizer));
    StoredAgreeOff(f, g, readOnly, path, SummaryPath(videoId, e.summarizer), TextFile(e.summarize(subtitles, title)));
  }

  /** `process_video` on two caches that agree off a path it never touches
      returns the same record and leaves caches that still agree off it. */
  lemma VideoRunAgree(f: Files, g: Files, readOnly: set<string>, path: string, videoUrl: string, idOf: IdExtractor,
                      index: int, title: string, e: Engine, duration: int, schedLink: Option<string>, useCache: bool,
                      proxy: bool, env: Env, transcripts: Transcripts)
    requires AgreeOff(f, g, path) && Untouched(path, e.summarizer)
    ensures var r1 := VideoRun(f, readOnly, videoUrl, idOf, index, title, e, duration, schedLink, useCache, proxy, env, transcripts);
      var r2 := VideoRun(g, readOnly, videoUrl, idOf, index, title, e, duration, schedLink, useCache, proxy, env, transcripts);
      r1.record == r2.record && AgreeOff(r1.files, r2.files, path) && SameAt(r1.files, f, path)
  {
    if !IsShort(duration) && idOf(videoUrl).Ok? {
      var id := idOf(videoUrl).value;
      SubtitlesAgree(f, g, readOnly, path, id, proxy, env, transcripts);
      var subtitles := OrEmpty(SubtitlesOf(f, id, proxy, env, transcripts));
      var f1 := FilesAfterSubtitles(f, readOnly, id, proxy, env, transcripts);
      SummaryAgree(f1, FilesAfterSubtitles(g, readOnly, id, proxy, env, transcripts), readOnly, path, e, id, subtitles, title, useCache);
      SubtitlesWriteOnlyTheirFile(f, readOnly, id, proxy, env, transcripts, path);
      SummaryWritesOnlyItsFile(f1, readOnly, e, id, subtitles, title, useCache, path);
    }
  }
}
