# summit, modelled in Dafny

summit turns a YouTube playlist, or the schedule of a conference hosted on
sched.com, into per-talk summaries and renders them as Markdown, a Marp slide
deck or an HTML page. This project models its core:

- the `process_video` / `process_playlist` pipeline and its file caches
  (`summit/core.py`);
- the sched.com scraper and `process_sched_talks` (`summit/sched.py`);
- the summarizer strategies and their factory (`summit/summarizers.py`);
- the three renderers (`summit/render.py`).

Layout, one module per file:

- `Common`: `Option`/`Result` and the records the pipelines exchange:
  - `VideoInfo`, a playlist listing entry;
  - `SchedTalk`, a scraped talk;
  - `TalkRecord`, one output record.
- `Text` and `Urls`: the string and URL operations the source takes from
  Python. They cover:
  - `re.sub` to `_`, `str.split`/`join`/`strip`/`lower` and `str(int)`;
  - `urlparse`, `hostname`, the first value of a `parse_qs` field, and the
    `'/'.join(link.split('/')[:3])` base URL.
- `Cache`: the cache directory as one class, `CacheStore`:
  - a `files` map from path to payload, which the save operations update in
    place;
  - a fixed set of paths where writes fail (the source prints the error and
    carries on).
- `CoreCache`: the cache paths and load/save operations of `core.py`,
  including the summarizer cache key.
- `Summarizers`: the four summarizer strategies as values. It covers:
  - constructor arguments, API keys and environment variables;
  - the prompt;
  - Gemini's retry loop;
  - how a reply or an error becomes the summary.
- `VideoIds`: `extract_video_id`, as written and corrected (see Findings).
- `Videos`: subtitles download, summary lookup/generation and
  `process_video`.
- `Playlist`: `process_playlist`:
  - the listing and its cache;
  - the limit and the playlist ID;
  - phase 1 (subtitles) and phase 2 (summaries, keyed by indexed URL).
- `SchedCache`: the schedule cache and the `/list/descriptions` URL rewrite.
- `SchedDetail`: `_fetch_talk_detail` on a parsed detail page:
  - the title retry loop;
  - the event type in the first direct `<a>` child;
  - the YouTube link, watch or embedded;
  - the deck link, made absolute.
- `Sched`: the scraper and `process_sched_talks`:
  - the event links and the offset skipping;
  - early stop at the limit;
  - cache use;
  - building records from descriptions or from `process_video`.
- `Render`: the three renderers:
  - the stable sort by `index`;
  - Markdown sections;
  - Marp chunking and slides;
  - `html.escape` and the per-talk HTML article.

### External parts

Everything outside the process is an oracle passed in as a parameter:

- the transcript service;
- `yt_dlp` extraction;
- the HTTP fetches of sched.com pages, given as already-parsed pages;
- the language-model clients;
- md5 (`digest`);
- the environment.

### How the state is modelled

- **Methods and functions.** Each state-changing step is a method on a
  `CacheStore`. Its `ensures` ties the outputs and the new `files` to a
  function of the old `files`. The lemmas state the properties of those
  functions.
- **Ordering.** Python dictionaries keep insertion order, and Dafny maps do
  not. So the pipelines build `map`s, and each renderer takes its items as a
  sequence in insertion order.
- **The `gather` calls** over `process_video` run one after the other.
- **What a run reads.** `Cache.AgreeOff(f, g, path)` says two caches differ
  at most at `path`. The refresh lemmas run a pipeline on two such caches
  and show that the file at `path` makes no difference.

## Model

| member | source | states |
|---|---|---|
| Common.OrEmpty | summit/sched.py:324-325 | `x or ""` on an optional string is non-empty exactly when the string is present and non-empty |
| Common.EnvGet | summit/summarizers.py:217 | `os.environ.get` is present exactly when the variable is set |
| Text.Sanitize | summit/core.py:106 | `re.sub(r"[^A-Za-z0-9._-]", "_", s)`: same length, every safe character kept in place, every other character replaced by `_`, result all safe |
| Text.SanitizeAppend | summit/sched.py:24 | sanitizing works character by character, so it distributes over concatenation |
| Text.SanitizeSafe | summit/core.py:106 | a string that is already safe is left unchanged |
| Text.IntToString | summit/core.py:102 | `str(n)` is non-empty and filename-safe, and starts with a digit exactly when `n >= 0` |
| Text.IntToStringInjective | summit/core.py:102 | different integers have different decimal texts |
| Text.DigitsRoundTrip | summit/core.py:102 | reading back the digits of `str(n)` gives `n` |
| Text.Split | summit/render.py:520 | `str.split(sep)` always yields at least one part |
| Text.JoinSplit | summit/render.py:520 | joining the parts of a split with the same separator gives back the string |
| Text.Strip | summit/render.py:529 | `str.strip()`: no longer than its input, neither end is whitespace, and empty exactly when the input is all whitespace |
| Urls.QueryValue | summit/core.py:323-324 | the first value `parse_qs` gives for a field is never empty (blank values are dropped) |
| Urls.MakeAbsolute | summit/sched.py:220-223 | a link starting with `http` is kept; any other is prefixed with the page's first three `/`-separated segments |
| Urls.QueryOfField | summit/core.py:147 | a query with no `&` is one field, whose value is the query's value for that name |
| Cache.ReadText | summit/core.py:64-75 | loading a text cache file succeeds exactly when the file exists and is readable, and gives its text |
| Cache.ReadVideos | summit/core.py:33-45 | loading a playlist cache file succeeds exactly when it exists and holds a video list, and gives that list |
| Cache.ReadTalks | summit/sched.py:34-46 | loading a schedule cache file succeeds exactly when it exists and holds a talk list, and gives that list |
| Cache.ReadAfterWrite | summit/core.py:78-85 | a write to a writable path is read back as written; a write to an unwritable path changes nothing |
| Cache.WriteElsewhere | summit/core.py:132-139 | writing one path leaves what every other path reads unchanged |
| Cache.CacheStore.constructor | summit/core.py:19-23 | the store starts with the given files and the given unwritable paths |
| Cache.CacheStore.Write | summit/core.py:48-56 | the new files are the old ones with the payload stored at the path when it is writable, and unchanged otherwise |
| CoreCache.SummarizerKey | summit/core.py:88-107 | the summarizer key is filename-safe and starts with the class name |
| CoreCache.ClassNameSafe | summit/core.py:94 | the four class names are already safe, so sanitizing keeps them |
| CoreCache.KeyWithLength | summit/core.py:98-106 | with a non-zero summary length the key is the sanitized `class[_model]_` followed by the length's decimal text |
| CoreCache.KeyDistinguishesLengths | summit/core.py:101-102 | two summarizers of the same class and model but different non-zero lengths get different keys |
| CoreCache.KeyModelCollision | summit/core.py:99-106 | two models whose names sanitize alike share a key, so they share summary cache files |
| CoreCache.ModelNamesCollide | summit/core.py:106 | the model names `gpt/4` and `gpt_4` differ but sanitize alike |
| CoreCache.KeyedSummaryPaths | summit/core.py:110-116 | two summarizers share a video's summary file exactly when their cache keys are equal |
| CoreCache.NamespacesDisjoint | summit/core.py:26-30 | playlist, subtitle and summary cache paths never coincide, and a subtitle path determines its video ID |
| CoreCache.SubtitleIdAt | summit/core.py:57-61 | the subtitle path embeds the video ID at a fixed position |
| CoreCache.LoadPlaylist | summit/core.py:33-45 | the playlist cache hits exactly when the digest-named file holds a video list |
| CoreCache.SavePlaylist | summit/core.py:48-56 | saving stores the list at the digest-named path (a failing write changes nothing) |
| CoreCache.LoadSubtitles | summit/core.py:64-75 | the subtitle cache hits exactly when the video's subtitle file is a readable text file |
| CoreCache.SaveSubtitles | summit/core.py:78-85 | saving stores the text at the video's subtitle path |
| CoreCache.LoadSummary | summit/core.py:118-129 | the summary cache hits exactly when the file named by video ID and summarizer key is a readable text file |
| CoreCache.SaveSummary | summit/core.py:132-139 | saving stores the summary at the path of the video ID and summarizer key |
| CoreCache.SummaryRoundTrip | summit/core.py:110-139 | a saved summary loads back for any summarizer with the same key |
| CoreCache.SummarySaveIsolated | summit/core.py:132-139 | saving a summary leaves every subtitle and every other summary lookup unchanged |
| CoreCache.SubtitleRoundTrip | summit/core.py:64-85 | saved subtitles load back |
| CoreCache.PlaylistRoundTrip | summit/core.py:33-56 | a saved playlist listing loads back |
| Summarizers.ResolveKey | summit/summarizers.py:31-47 | the API key is the argument when non-empty, else the environment variable when non-empty, and missing exactly when both are missing or empty |
| Summarizers.NewAnthropic | summit/summarizers.py:31-47 | construction fails with the missing-key error exactly when no non-empty key is found and the arguments are valid; otherwise the key is non-empty and defaults are `claude-3-5-haiku-20241022` and 800 words |
| Summarizers.NewOpenAI | summit/summarizers.py:82-98 | the same as Anthropic, with `OPENAI_API_KEY` and the default model `gpt-4o-mini` |
| Summarizers.NewGemini | summit/summarizers.py:131-147 | the same, with `GOOGLE_API_KEY` and the default `gemini-2.0-flash-exp`; the `model` attribute is the model object's text |
| Summarizers.StripTrailingSlashes | summit/summarizers.py:212 | `rstrip("/")`: the result is a prefix of the input, does not end in `/`, and only `/` was removed |
| Summarizers.NewOllama | summit/summarizers.py:204-221 | fails exactly when an API key is passed; sequential when asked or when `OLLAMA_SEQUENTIAL` is 1/true/yes; a lock exactly when sequential; base URL without trailing slashes; defaults `granite3.3:2b` and 800 |
| Summarizers.FactoryNames | summit/summarizers.py:272-296 | the factory fails with unknown-strategy exactly for names outside the four, and otherwise builds that strategy's class |
| Summarizers.HostedNeedKey | summit/summarizers.py:31-147 | a hosted strategy with no key given and none in the environment fails to build |
| Summarizers.PromptEmbedsPrefix | summit/summarizers.py:51-63 | the prompt holds exactly the first 50000 characters of the transcript between its fixed head and tail |
| Summarizers.PromptIgnoresTail | summit/summarizers.py:154-164 | text beyond the first 50000 characters does not change the prompt |
| Summarizers.DigitRun | summit/summarizers.py:185 | the longest run of digits at the start of the text |
| Summarizers.NumberAt | summit/summarizers.py:185 | the number `\d+\.?\d*` matched at the start is a prefix of the text starting with a digit, or nothing |
| Summarizers.RetryIn | summit/summarizers.py:181-187 | a suggested delay found after `retry in ` starts with a digit |
| Summarizers.RateLimitedWhen | summit/summarizers.py:169-196 | an attempt is retried exactly when it raised a rate-limit error (`429`, `quota`, `rate`), with the computed delay; it gives up exactly on any other error; a reply is the answer |
| Summarizers.GeminiSummarize | summit/summarizers.py:166-198 | the loop returns the summary and the sleeps of the reference definition of the retry loop |
| Summarizers.Advance | summit/summarizers.py:169-193 | one iteration either finishes with the loop's result or moves to the next attempt, keeping summary and sleeps equal to the reference |
| Summarizers.ComputeStep | summit/summarizers.py:170-196 | one attempt's outcome is the reference step of that attempt |
| Summarizers.ComputeRetryDelay | summit/summarizers.py:180-187 | the delay is the suggested number when the lowered message has one, else `2 * 2**attempt` |
| Summarizers.SuggestedMentionsRetry | summit/summarizers.py:181-186 | a suggested delay is only found in a message containing `retry in` |
| Summarizers.RetryInOccurs | summit/summarizers.py:185 | a number found from any position follows an occurrence of `retry in` |
| Summarizers.AtMostThreeCalls | summit/summarizers.py:166-178 | the loop sleeps at most twice: no sleep after the last of the three attempts |
| Summarizers.WaitIsRateLimit | summit/summarizers.py:177-193 | every sleep follows a rate-limited attempt that was not the last, and lasts that attempt's delay |
| Summarizers.RunResult | summit/summarizers.py:169-198 | the result is the error sentinel or the answer of some attempt; an immediate answer or non-rate-limit error ends the loop at once |
| Summarizers.GeminiDelays | summit/summarizers.py:177-192 | the k-th sleep follows a rate-limit error on attempt k and lasts its retry delay |
| Summarizers.BackoffSeconds | summit/summarizers.py:167-180 | without a suggestion the delays are 2 s then 4 s |
| Summarizers.GeminiResult | summit/summarizers.py:166-198 | the Gemini summary is an error sentinel or some attempt's reply; a first reply is returned as is; a first non-rate-limit error gives the error sentinel |
| Summarizers.OllamaNeverBlank | summit/summarizers.py:261-269 | the Ollama summary is never blank: non-blank content is returned, blank or missing content gives the format sentinel |
| Summarizers.HostedSentinel | summit/summarizers.py:64-76 | Anthropic and OpenAI return the reply text, or the error sentinel when the call raises |
| Summarizers.SummaryOrigin | summit/summarizers.py:49-269 | every summary is a sentinel or text some client call returned |
| Summarizers.Summarize | summit/summarizers.py:223-228 | the method's result is the strategy's summary of the text |
| VideoIds.ExtractVideoIdAsWritten | summit/core.py:142-150 | all three outcomes: the missing-key error exactly for a YouTube `/watch` URL whose query has no non-blank `v`; the invalid-URL error exactly when the host is neither a YouTube host at `/watch` nor `youtu.be`; the first non-blank `v` for a YouTube `/watch` URL that has one; the path without its first character for a `youtu.be` URL |
| VideoIds.ShortsLinkInvalid | summit/core.py:144-150 | a `https://www.youtube.com/shorts/...` link, whatever follows `/shorts/`, is an invalid URL, as written and corrected |
| Urls.ParsePathPrefix | summit/core.py:144 | `urlparse` of `scheme://host` plus a path keeps the host as the network location and the path's leading part up to any `?`, `#` or `;` |
| VideoIds.ExtractVideoId | summit/core.py:142-150 | every failure is the invalid-URL error, and it succeeds, with the same ID, exactly when the code as written does |
| VideoIds.WatchUrlRoundTrip | summit/core.py:299 | the ID is extracted back from the watch URL the listing builds for it |
| VideoIds.ShortLinkRoundTrip | summit/core.py:148-149 | a `youtu.be/<id>` link gives back its ID, whatever query follows |
| VideoIds.WatchWithoutVideoParam | summit/core.py:145-147 | a watch URL without a non-blank `v` raises the missing-key error as written, and is an invalid URL when corrected |
| VideoIds.SharedWatchLinkRaises | summit/core.py:147 | `https://www.youtube.com/watch?feature=share` raises the missing-key error as written |
| Videos.SubtitlesOf | summit/core.py:151-184 | cached subtitles are used when present, otherwise the fetched transcript |
| Videos.DownloadSubtitles | summit/core.py:151-184 | the subtitles are `SubtitlesOf`, and the new files are the old ones plus the fetched transcript cached |
| Videos.SubtitlesSettle | summit/core.py:153-180 | once subtitles are obtained, a second download returns the same text whatever the proxy, environment or service, and writes nothing |
| Videos.SubtitlesWriteOnlyTheirFile | summit/core.py:180 | downloading subtitles changes no file but the video's subtitle file |
| Videos.EngineOf | summit/core.py:229 | the summarize step of an engine is its strategy's summary |
| Videos.ObtainSummary | summit/core.py:219-233 | the summary and the new files are those of the reference definition |
| Videos.SummarySources | summit/core.py:219-233 | a cache hit is used when enabled; otherwise with subtitles the summary is generated; without either it is blank; a non-empty summary came from one of those two |
| Videos.SummarySettles | summit/core.py:226-230 | after a summary is produced, it is cached, a second lookup returns it and writes nothing |
| Videos.SummaryWritesOnlyItsFile | summit/core.py:230 | obtaining a summary changes no file but its summary file |
| Videos.ProcessVideo | summit/core.py:195-247 | the record and new files are those of the reference definition |
| Videos.SubtitlesAgree | summit/core.py:151-184 | the subtitle step reads and writes only the video's subtitle file |
| Videos.SummaryAgree | summit/core.py:218-233 | the summary step reads and writes only the video's summary file for this summarizer |
| Videos.VideoRunAgree | summit/core.py:195-247 | `process_video` gives the same record on caches that differ only at a path holding no subtitle or summary file, and does not write that path |
| Videos.VideoRunRecord | summit/core.py:195-247 | a record is returned exactly for a video that is not short (0 < d < 120) and whose URL gives an ID; a skipped video writes nothing; the record carries index, title and a `sched_link` exactly when one is given |
| Videos.NoSubtitlesBlankSummary | summit/core.py:215-233 | without subtitles and without the cache, the video is kept with a blank summary and no file changes |
| Playlist.CollectVideos | summit/core.py:293-302 | the loop builds the reference listing of the entries |
| Playlist.ListedExactly | summit/core.py:294-302 | the listing holds exactly one video per present entry with a non-empty ID |
| Playlist.ListedAppend | summit/core.py:294-302 | the listing of concatenated entries is the concatenation of their listings |
| Playlist.ListedVideoId | summit/core.py:299 | the ID extracted from a listed video's URL is its entry's ID |
| Playlist.Window | summit/core.py:312-317 | a positive limit keeps the first `min(limit, n)` videos; otherwise all of them are kept |
| Playlist.PlaylistId | summit/core.py:319-324 | a playlist ID, when found, is non-empty |
| Playlist.PlaylistIdOf | summit/core.py:320-324 | the `list` value of a playlist page URL is its playlist ID |
| Playlist.IndexedUrlKeepsIndex | summit/core.py:338-342 | with a playlist ID, indexed URLs of the same video differ exactly when their positions differ; without one, the indexed URL is the video URL |
| Playlist.PrepareVideos | summit/core.py:326-371 | phase 1's prepared list and new files are those of the reference definition |
| Playlist.PrepareVideo | summit/core.py:328-371 | one video's step is the reference step |
| Playlist.PrepareOneItem | summit/core.py:333-371 | a video is prepared, with its position, exactly when it is not short and has an ID |
| Playlist.PreparedSound | summit/core.py:326-371 | every prepared item describes the video at its 1-based position, and positions increase |
| Playlist.PreparedComplete | summit/core.py:326-371 | every eligible video is prepared |
| Playlist.PrepareWritesSubtitlesOnly | summit/core.py:355 | phase 1 writes subtitle files only |
| Playlist.SummarizeVideos | summit/core.py:373-403 | phase 2's output and new files are those of the reference definition |
| Playlist.SummarizeVideo | summit/core.py:375-401 | one item's step is the reference step |
| Playlist.LastKeyed | summit/core.py:397 | the last prepared item with a given indexed URL, or none |
| Playlist.OutputLastWins | summit/core.py:397-401 | the output has exactly the prepared items' indexed URLs as keys, each mapped to the record of the last item with that URL |
| Playlist.SummarizeWritesSummariesOnly | summit/core.py:392 | phase 2 writes summary files only |
| Playlist.ObtainListing | summit/core.py:271-309 | the listing and new files are those of the reference definition |
| Playlist.ProcessPlaylist | summit/core.py:250-403 | the output and new files are those of the reference definition |
| Playlist.PlaylistFailure | summit/core.py:285-309 | when the listing must be extracted and extraction fails or has no entries, the result is empty and no file changes |
| Playlist.CachedListingIgnoresExtraction | summit/core.py:272 | with a cached listing and no refresh, what the extractor would give makes no difference |
| Playlist.PhasesRecords | summit/core.py:326-403 | each output record belongs to an eligible video of the window, under that video's indexed URL, with its position and title |
| Playlist.PhasesComplete | summit/core.py:326-403 | every eligible video of the window has a record |
| Playlist.RefreshIgnoresCachedListing | summit/core.py:271-305 | with a refresh, two caches that differ at most in the playlist file give the same output and still differ at most there; after a successful extraction into a writable file they are the same |
| Playlist.PrepareAllAgree | summit/core.py:326-371 | phase 1 reads and writes the cache only through subtitle files |
| Playlist.SummarizeAllAgree | summit/core.py:373-403 | phase 2 reads and writes the cache only through this summarizer's summary files |
| Playlist.RunPhasesAgree | summit/core.py:326-403 | both phases give the same output on caches that differ only at a path they never touch |
| Playlist.PhasesWriteOnly | summit/core.py:355-392 | the phases write only subtitle and summary files |
| Playlist.FullListingCached | summit/core.py:293-305 | after an extraction, the whole listing is cached, before the limit applies |
| Playlist.PlaylistRecords | summit/core.py:250-403 | a non-empty output comes from a listing, its records describe the limited window, and no index exceeds a positive limit |
| Playlist.PlaylistComplete | summit/core.py:250-403 | every eligible video of the limited window has a record |
| SchedCache.SafeFilename | summit/sched.py:16-25 | the filename is safe and as long as `scheme://netloc path [?query]` |
| SchedCache.SafeFilenameOf | summit/sched.py:16-25 | for a well-formed URL the filename is the sanitized `scheme://host path`, then `_` and the sanitized query when there is one |
| SchedCache.LoadSchedCache | summit/sched.py:34-46 | a hit gives the talks stored at the event's cache path |
| SchedCache.SaveSchedCache | summit/sched.py:49-57 | saving stores the talks at the event's cache path |
| SchedCache.SchedPathDisjoint | summit/sched.py:28-31 | schedule cache paths never coincide with playlist, subtitle or summary paths |
| SchedCache.SchedCacheRoundTrip | summit/sched.py:34-57 | saved talks load back; a failing save leaves the lookup as it was |
| SchedCache.NormalizeEventUrl | summit/sched.py:174-179 | the scraped URL contains `/list/descriptions`; a URL containing it is kept, any other becomes `scheme://netloc/list/descriptions` |
| SchedCache.NormalizeIdempotent | summit/sched.py:175-179 | normalizing twice is normalizing once |
| SchedCache.LinkOnPage | summit/sched.py:220-223 | a relative link found on `scheme://host/...` becomes `scheme://host` plus the link |
| SchedCache.RelativeLinkOnNormalized | summit/sched.py:220-223 | a relative event link on the normalized page gets the original URL's scheme and host |
| SchedDetail.TitledPage | summit/sched.py:66-89 | the page the retry loop settles on has a title |
| SchedDetail.FindTitledPage | summit/sched.py:66-89 | the loop's page is the reference page; it stops at the first titled page, after at most three attempts, and fails only after three untitled pages or a failed request |
| SchedDetail.TitledPageAt | summit/sched.py:70-81 | the first attempt that gives a titled page decides the page |
| SchedDetail.NeverTitled | summit/sched.py:87-89 | three untitled pages give no talk |
| SchedDetail.FirstAnchor | summit/sched.py:105-109 | the position of the first direct `<a>` child, with no anchor before it, or none when there is no anchor |
| SchedDetail.FindFirstAnchor | summit/sched.py:105-109 | the loop finds the first anchor |
| SchedDetail.EventTypeOf | summit/sched.py:101-117 | an event type, when present, is non-empty |
| SchedDetail.EventTypeIsFirstAnchor | summit/sched.py:101-117 | the event type is the first anchor's text, or none when that text is empty |
| SchedDetail.IdRunEnd | summit/sched.py:132 | the end of the run of characters other than `?`, `&`, `/` |
| SchedDetail.EmbedIdFrom | summit/sched.py:132 | an embedded ID is non-empty and holds none of `?`, `&`, `/` |
| SchedDetail.EmbedIdOf | summit/sched.py:132-134 | the ID after `youtube.com/embed/` up to the next delimiter is found |
| SchedDetail.VideoUrlOf | summit/sched.py:119-134 | a found video URL is non-empty |
| SchedDetail.EmbeddedVideo | summit/sched.py:127-134 | without watch links, the first embed gives the watch URL of its ID, and that URL's ID is extracted back |
| SchedDetail.DeckOf | summit/sched.py:136-146 | a deck exists exactly when the container has a linked anchor; an empty or `http` link is kept as is |
| SchedDetail.RelativeDeck | summit/sched.py:143-145 | a relative deck link gets the talk page's `scheme://host` |
| SchedDetail.FetchTalkDetail | summit/sched.py:60-164 | the fetched talk is that of the reference definition |
| SchedDetail.TalkDetailShape | summit/sched.py:87-160 | a talk is returned exactly when a titled page has a video URL; it carries the link, a non-empty video URL, the title, and a non-empty event type if any |
| Sched.EventLinks | summit/sched.py:210-228 | at most one link per item, each absolute or prefixed with the page's base; when every item has a link, it is exactly that link made absolute |
| Sched.CollectEventLinks | summit/sched.py:210-228 | the loop collects the reference links |
| Sched.Details | summit/sched.py:242-244 | the talks found are at most one per link, each from one of the links, each with a video |
| Sched.Processed | summit/sched.py:235-248 | how many links after the offset get a detail request: a count between the start and the end |
| Sched.ScrapeDetails | summit/sched.py:232-256 | the links requested are those after the offset up to the early stop, and the talks are their details trimmed to the limit |
| Sched.FetchNext | summit/sched.py:242-248 | one request extends the details by that link's talk and stops exactly when the limit is reached |
| Sched.FetchStep | summit/sched.py:235-248 | one more link adds its talk, if any, and stops the loop exactly when that reaches the limit |
| Sched.ScrapeTalks | summit/sched.py:167-259 | the scraped talks are those of the reference definition |
| Sched.DetailsAppend | summit/sched.py:235-245 | the details of concatenated links are the concatenation of their details |
| Sched.DetailsStep | summit/sched.py:242-244 | one link adds at most one talk |
| Sched.ProcessedAll | summit/sched.py:247 | without a limit (or with 0) every link is requested |
| Sched.ProcessedStops | summit/sched.py:247-248 | with a positive limit the requests stop at the end or exactly when the limit is reached |
| Sched.ScrapedWindow | summit/sched.py:233-256 | the early stop loses nothing: the scraped talks are all details, or the first `limit` of them, or none for a negative limit |
| Sched.ScrapeResult | summit/sched.py:167-256 | a failed listing gives no talks; otherwise the first `limit` talks with videos among the links after the offset |
| Sched.FetchLimit | summit/sched.py:288-290 | only a positive limit is passed on to the scraper |
| Sched.ObtainTalks | summit/sched.py:275-297 | the talks, the cache flag and the new files are those of the reference definition |
| Sched.CacheWrittenOnlyUnoffset | summit/sched.py:294-297 | the cache is written only by a fresh, non-empty, non-refresh scrape with offset 0, and then holds that scrape, which the limit has already cut |
| Sched.SelectTalks | summit/sched.py:303-315 | the window is the reference window |
| Sched.CachedWindow | summit/sched.py:305-315 | from the cache, the offset is skipped then the limit applied |
| Sched.FreshWindow | summit/sched.py:284-315 | a fresh scrape is already offset, and the window is its first `limit` talks |
| Sched.RefreshIgnoresCachedSchedule | summit/sched.py:276-297 | with a refresh, two caches that differ at most in the event's schedule file give the same output; the run neither reads nor writes that file |
| Sched.TalkResultsAgree | summit/sched.py:341-357 | processing the talks gives the same results on caches that differ only at a path the video steps never touch, and does not write that path |
| Sched.RecordsForAgree | summit/sched.py:318-378 | the records do not depend on such a path, and building them does not write it |
| Sched.CachedRunFetchesNothing | summit/sched.py:278-282 | with a cached schedule and no refresh the result does not depend on the network, and with descriptions only no file changes |
| Sched.NonEmpty | summit/sched.py:324-325 | `x or ""` kept as an optional: present exactly when non-empty |
| Sched.BuildFromDescriptions | summit/sched.py:318-337 | the loop builds the reference output |
| Sched.LastWithUrl | summit/sched.py:336 | the last talk with a given video URL, or none |
| Sched.DescriptionsLastWins | summit/sched.py:318-337 | the output has exactly the talks' video URLs as keys, each with the record of the last talk with that URL |
| Sched.RecordsFromDescriptions | summit/sched.py:318-337 | each description record has the talk's position, title, description as summary, schedule link, and event type and deck only when non-empty |
| Sched.TalkResults | summit/sched.py:342-357 | one result per talk |
| Sched.RunTalks | summit/sched.py:342-357 | the results and new files are those of the reference definition |
| Sched.RunTalk | summit/sched.py:343-354 | one talk's step is the reference step |
| Sched.TalkResultsShape | summit/sched.py:342-357 | each talk gives a record exactly when its URL gives an ID, with its position, title and schedule link and no event type or deck |
| Sched.TalkResult | summit/sched.py:344-354 | the same for one talk |
| Sched.AttachDetails | summit/sched.py:359-371 | the loop builds the reference output |
| Sched.SummarizedLastWins | summit/sched.py:359-371 | the output has exactly the URLs that give an ID, each with the last such talk's record with its details attached |
| Sched.SummarizedRecords | summit/sched.py:359-371 | each output record has the talk's position, title, schedule link, and event type and deck only when non-empty |
| Sched.AttachedFromSummary | summit/sched.py:365-370 | attaching the details adds the event type and deck exactly when non-empty |
| Sched.RecordsFromSummaries | summit/sched.py:339-371 | the summarized output has the shape `SummarizedRecords` states |
| Sched.BuildRecords | summit/sched.py:317-371 | the output and new files are those of the reference definition |
| Sched.ProcessSchedTalks | summit/sched.py:267-373 | the output and new files are those of the reference definition |
| Render.WithIndex | summit/render.py:10 | the items of a given index, in order |
| Render.InsertByIndex | summit/render.py:10 | inserting adds one element |
| Render.SortByIndex | summit/render.py:10 | sorting keeps the length |
| Render.InsertPermutes | summit/render.py:10 | insertion adds exactly the element |
| Render.InsertSorted | summit/render.py:10 | insertion into a sorted list keeps it sorted |
| Render.InsertKeepsOrder | summit/render.py:10 | insertion places the element after the items of equal index |
| Render.SortByIndexCorrect | summit/render.py:10 | the sort is sorted by index, a permutation, and stable: items of equal index keep their order |
| Render.WithIndexAppend | summit/render.py:10 | selecting by index distributes over concatenation |
| Render.LinkLine | summit/render.py:20-27 | the link line starts with the Event and Youtube links, then the Deck link when a deck is present, and ends with the event type when present |
| Render.Section | summit/render.py:16-39 | a Markdown section starts with `## ` and the title |
| Render.Sections | summit/render.py:16-39 | one section per talk |
| Render.RenderMarkdown | summit/render.py:7-41 | the Markdown is the optional heading and the sections in index order, joined by blank lines |
| Render.MarkdownOpening | summit/render.py:14-41 | with a title the document opens with it; without one it is empty exactly when there are no talks, and otherwise opens with a section |
| Render.JoinSnoc | summit/render.py:41 | joining one more part adds the separator and the part |
| Render.Kept | summit/render.py:528-531 | the kept paragraphs are non-empty, at most one per paragraph |
| Render.JoinEach | summit/render.py:533-540 | each chunk is its group's paragraphs joined by a blank line |
| Render.ChunkSummary | summit/render.py:519-540 | the loop computes the reference chunks |
| Render.ChunksPartition | summit/render.py:523-540 | the groups hold exactly the kept paragraphs, in order; each fits in 1000 characters or is one paragraph; each group was closed because the next paragraph would not fit; there are none exactly when nothing is kept |
| Render.KeptEmpty | summit/render.py:528-543 | nothing is kept exactly when every paragraph is whitespace |
| Render.ContentSlides | summit/render.py:546-548 | one slide per chunk: the chunk, a newline and the slide separator |
| Render.RenderMarpDeck | summit/render.py:482-559 | the deck is the header, the optional title slide and each talk's slides in index order, with the last separator cut |
| Render.BuildSlides | summit/render.py:496-548 | the slide loop builds the opening then every talk's slides |
| Render.AddTalk | summit/render.py:502-548 | one iteration adds the next talk's slides |
| Render.AddTalkSlides | summit/render.py:517-548 | a talk adds its title card then one slide per chunk (none when nothing is kept) |
| Render.AppendContentSlides | summit/render.py:546-548 | the chunk loop appends the content slides |
| Render.TalkSlidesShape | summit/render.py:502-548 | a talk's slides are its title card then one per chunk, and only the card when every paragraph is blank |
| Render.DeckSlidesClosed | summit/render.py:517-548 | every talk slide ends with the separator |
| Render.DeckEnding | summit/render.py:550-557 | with more than the header, the last slide ends with the separator and is cut just before it; with only the header nothing is cut |
| Render.CutLastClosed | summit/render.py:550-557 | cutting at the last `\n---` of a closed slide removes exactly its separator |
| Render.Escape | summit/render.py:211-213 | escaping is empty exactly when its input is |
| Render.EscapeSafe | summit/render.py:211-250 | escaped text has no markup character except the `&` of references |
| Render.EscapeRoundTrip | summit/render.py:211-250 | unescaping the escaped text gives it back |
| Render.PageTitle | summit/render.py:47 | the page title unescapes to the title, or to `Conference Summary` when it is empty |
| Render.HasEventTypesSome | summit/render.py:50 | the type filter is shown exactly when some item's stripped event type is non-empty |
| Render.SortedEventTypes | summit/render.py:45-50 | sorting does not change whether the filter is shown |
| Render.ItemKey | summit/render.py:213 | the item key is the URL, else the schedule link, else the title |
| Render.ItemIdFallback | summit/render.py:213 | the item's `data-id` unescapes to its key, and is empty exactly when URL, link and title are all empty |
| Render.Anchor | summit/render.py:217-227 | a link anchor is non-empty |
| Render.Links | summit/render.py:215-227 | one anchor per present link, Event first and Deck last |
| Render.MetaTextJoin | summit/render.py:229-234 | the meta line is the links and the escaped event type, joined by a middle dot |
| Render.MapItems | summit/render.py:204-253 | one rendering per item |
| Render.RenderEach | summit/render.py:204-253 | the article loop concatenates each item's article |
| Render.RenderTalkList | summit/render.py:204-253 | the talk list is every article in index order |
| Render.PageHead | summit/render.py:45-62 | the page title and whether the type filter is shown |

## Left out

- Process boundaries:
  - file I/O, `mkdir`, `asyncio.sleep` and `print` are left out, and so is the
    `sleep` parameter;
  - the cache directory is one map from path to payload;
  - a corrupt file is an `Unreadable` payload.
- JSON is modelled by its payloads, not by its text:
  - `json.dump` then `json.load` keep the lists;
  - a record's missing key is `None`.
- md5 is the `digest` parameter of the playlist cache path.
- Concurrency:
  - `asyncio.gather` over `process_video` runs in order;
  - the Ollama lock is only the `hasLock` field, because its effect is to
    serialize calls, and those are already sequential here.
- Rendering order: Python dictionaries keep insertion order and Dafny maps do
  not, so each renderer takes its dictionary's items as a sequence, in
  insertion order.
- The default summarizer, which `get_summarizer("anthropic")` builds when
  none is given, is not modelled: every pipeline takes an engine.
- The speakers field of `process_video`: no caller in the core passes it.
- The HTML page's constant style, markup and script around the data are left
  out. The model keeps the page title, the type-filter decision and the
  articles.
- `summit/cli.py` and `summit/fetch_summaries.py` are not part of this model.
- The transcript service, `yt_dlp`, the HTTP requests and BeautifulSoup
  parsing are oracles. So are the language-model clients.
- `parse_qs` is simplified:
  - no percent-decoding or `+` decoding;
  - blank values are dropped;
  - only the first value is kept.
- `urlparse`: a network location with an unbalanced `[` or `]` is not rejected (Python raises `ValueError`).
- `str.lower` is ASCII-only.
- `process_video` with a missing duration (`None > 0` raises `TypeError`):
  durations are integers.
- Scraping: the three fallback selectors that find event items are one
  oracle, `ListingFetcher`. It gives each item's first `/event/` link, or
  none.
- SchedDetail.TalkOfPage: exceptions are modelled only for the failing
  request, which gives no talk (`RequestFailed`).
- Render.Escape: models `html.escape` for the five characters it rewrites.
  `Unescape` is its partner, and decodes only those references.
- Summarizers.NewGemini: `str(model)` of the library's model object is the
  `describe` parameter.
- DigitRun (Summarizers.DigitRun) and NumberAt (Summarizers.NumberAt): these
  match ASCII digits only. Python's `\d` and `float()` also accept the other
  Unicode decimal digits, so a suggested delay written in such digits is found
  by the source and missed by the model (which then keeps the backoff). Error
  texts from the service use ASCII digits.
- Playlist.CollectVideos: an entry's title or duration is either present or
  absent. The source's `entry.get` returns `None` for a key that is present
  with a null value, and a null duration then raises `TypeError` at
  `duration > 0` (core.py:334). The model cannot express a present but null
  key.
- Summarizers.Summarize: a reply always carries text. The OpenAI client's
  `message.content` (summarizers.py:122) can be `None`, which the model does
  not represent.
- Summarizers.ComputeRetryDelay: the suggested delay is kept as its text.
  `float()` and the sleep are left out.
- Summarizers.NewAnthropic, Summarizers.NewOpenAI, Summarizers.NewGemini:
  - a keyword a constructor does not accept is one `UnexpectedArgument`
    error;
  - argument types are not checked.
- Sched.CacheWrittenOnlyUnoffset: the source says the schedule cache "always
  represents the full un-offset set". A run with a positive limit caches only
  the talks it scraped, and the model keeps that behaviour as written.

## Findings

| source | as written | input that shows it | evidently intended | confidence | as-written member | corrected member |
|---|---|---|---|---|---|---|
| summit/core.py:147 | `parse_qs(parsed.query)['v'][0]` raises `KeyError` for a watch URL without a non-blank `v`; `process_video` (core.py:205) and `process_playlist` (core.py:347) catch only `ValueError`, so the whole run stops | `https://www.youtube.com/watch?feature=share` | such a URL is an invalid YouTube URL (`ValueError`), and the video is skipped | not executed | VideoIds.SharedWatchLinkRaises | VideoIds.ExtractVideoId |
