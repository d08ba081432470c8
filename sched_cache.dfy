/** The event-schedule cache (`_safe_filename_from_url`,
    `get_sched_cache_path`, `load_sched_cache`, `save_sched_cache`) and
    the two URL rules of the scraper: rewriting an event URL to its
    descriptions page and making a relative link absolute. */
module SchedCache {
  import opened Common
  import opened Text
  import opened Urls
  import opened Cache
  import opened CoreCache
  import opened Summarizers

  // ---------------------------------------------------------------------
  // File names

  /** `scheme://netloc` + path, then `?query` when the query is not empty;
      parameters and fragment are dropped. */
  function FilenameBase(u: Url): string
  {
    u.scheme + "://" + u.netloc + u.path + (if u.query != "" then "?" + u.query else "")
  }

  /** `_safe_filename_from_url`. */
  function SafeFilename(url: string): (r: string)
    ensures AllSafe(r)
    ensures |r| == |FilenameBase(ParseUrl(url))|
  {
    Sanitize(FilenameBase(ParseUrl(url)))
  }

  /** `get_sched_cache_path`, relative to `~/.cache`. */
  function SchedPath(eventUrl: string): string
  {
    "summit/sched_" + SafeFilename(eventUrl) + ".json"
  }

  /** `load_sched_cache`: the cached talks, or `None` when the file is
      missing or cannot be read. */
  function LoadSchedCache(files: Files, eventUrl: string): (r: Option<seq<SchedTalk>>)
    ensures r.Some? <==> SchedPath(eventUrl) in files && files[SchedPath(eventUrl)].TalkList?
    ensures r.Some? ==> r.value == files[SchedPath(eventUrl)].talks
  {
    ReadTalks(files, SchedPath(eventUrl))
  }

  /** `save_sched_cache`: a failing write is swallowed. */
  method SaveSchedCache(cache: CacheStore, eventUrl: string, talks: seq<SchedTalk>)
    modifies cache
    ensures cache.files == Stored(old(cache.files), cache.readOnly, SchedPath(eventUrl), TalkList(talks))
  {
    cache.Write(SchedPath(eventUrl), TalkList(talks));
  }

  // ---------------------------------------------------------------------
  // Event URLs

  const DescriptionsPath := "/list/descriptions"

  /** The scraper's first step: a URL that does not contain
      `/list/descriptions` becomes `scheme://netloc/list/descriptions`. */
  function NormalizeEventUrl(url: string): (r: string)
    ensures Contains(r, DescriptionsPath)
    ensures Contains(url, DescriptionsPath) ==> r == url
    ensures !Contains(url, DescriptionsPath) ==>
      r == ParseUrl(url).scheme + "://" + ParseUrl(url).netloc + DescriptionsPath
  {
    if Contains(url, DescriptionsPath) then url
    else
      var u := ParseUrl(url);
      var base := u.scheme + "://" + u.netloc;
      assert (base + DescriptionsPath)[|base|..|base| + |DescriptionsPath|] == DescriptionsPath;
      ContainsAt(base + DescriptionsPath, DescriptionsPath, |base|);
      base + DescriptionsPath
  }

  // ---------------------------------------------------------------------
  // Lemmas

  /** The file name of `scheme://host/path?query`: the sanitized
      `scheme://host/path`, then the query behind a `_` (the sanitized `?`)
      only when the query is not empty. */
  lemma SafeFilenameOf(scheme: string, host: string, path: string, query: string)
    requires IsSchemeName(scheme)
    requires HasNo(host, '/') && HasNo(host, '?') && HasNo(host, '#')
    requires path != [] && path[0] == '/' && HasNo(path, '?') && HasNo(path, '#') && HasNo(path, ';')
    requires HasNo(query, '#')
    ensures SafeFilename(scheme + "://" + host + path + "?" + query) ==
      Sanitize(scheme + "://" + host + path) + (if query == "" then "" else "_" + Sanitize(query))
  {
    ParseUrlOf(scheme, host, path, query);
    if query != "" {
      SanitizeAppend(scheme + "://" + host + path, "?" + query);
      SanitizeAppend("?", query);
    }
  }

  /** The schedule cache shares no file with the playlist, subtitle and
      summary caches. */
  lemma SchedPathDisjoint(eventUrl: string, digest: string -> string, playlistUrl: string,
                          id1: string, id2: string, s: Summarizer)
    ensures SchedPath(eventUrl) != PlaylistPath(digest, playlistUrl)
    ensures SchedPath(eventUrl) != SubtitlePath(id1)
    ensures SchedPath(eventUrl) != SummaryPath(id2, s)
  {
    SchedPathHead(eventUrl);
    PlaylistPathHead(digest, playlistUrl);
    SubtitlePathHead(id1);
    SummaryFileNinth(id2, SummarizerKey(s));
  }

  lemma SchedPathHead(eventUrl: string)
    ensures |SchedPath(eventUrl)| > 8
    ensures SchedPath(eventUrl)[2] == 'm' && SchedPath(eventUrl)[7] == 's' && SchedPath(eventUrl)[8] == 'c'
  {
  }

  lemma SummaryFileNinth(id: string, key: string)
    ensures |SummaryFile(id, key)| > 8 && SummaryFile(id, key)[8] == 'u'
  {
  }

  /** Loading the schedule cache after saving it gives back the talks
      saved, unless the write failed. */
  lemma SchedCacheRoundTrip(files: Files, readOnly: set<string>, eventUrl: string, talks: seq<SchedTalk>)
    ensures SchedPath(eventUrl) !in readOnly ==>
      LoadSchedCache(Stored(files, readOnly, SchedPath(eventUrl), TalkList(talks)), eventUrl) == Some(talks)
    ensures SchedPath(eventUrl) in readOnly ==>
      LoadSchedCache(Stored(files, readOnly, SchedPath(eventUrl), TalkList(talks)), eventUrl) == LoadSchedCache(files, eventUrl)
  {
  }

  /** Normalizing twice changes nothing. */
  lemma NormalizeIdempotent(url: string)
    ensures NormalizeEventUrl(NormalizeEventUrl(url)) == NormalizeEventUrl(url)
  {
  }

  /** Neither the scheme nor the network location `urlparse` finds
      contains a '/'. */
  lemma ParsedHasNoSlash(s: string)
    ensures HasNo(ParseUrl(s).scheme, '/') && HasNo(ParseUrl(s).netloc, '/')
  {
    var u := ParseUrl(s);
    var (scheme, after) := SplitScheme(s);
    assert u.scheme == scheme;
    match Find(s, ':')
    case Some(i) =>
      if i > 0 && IsAsciiLetter(s[0]) && (forall k :: 0 <= k < i ==> IsSchemeChar(s[k])) {
        forall k | 0 <= k < |scheme| ensures scheme[k] != '/' {
          assert scheme[k] == LowerChar(s[..i][k]);
          assert IsSchemeChar(s[k]);
        }
      }
    case None =>
  }

  /** A relative link found on a page `scheme://host...` is made absolute
      by prefixing `scheme://host`; an `http` link is kept as it is. */
  lemma LinkOnPage(scheme: string, host: string, rest: string, href: string)
    requires HasNo(scheme, '/') && HasNo(host, '/')
    requires rest == "" || rest[0] == '/'
    ensures MakeAbsolute(href, scheme + "://" + host + rest) ==
      if StartsWith(href, "http") then href else scheme + "://" + host + href
  {
    BaseUrlOfUrl(scheme, host, rest);
  }

  /** On a rewritten event URL, a relative event link is prefixed with the
      scheme and network location of the URL the user gave. */
  lemma RelativeLinkOnNormalized(url: string, href: string)
    requires !Contains(url, DescriptionsPath) && !StartsWith(href, "http")
    ensures MakeAbsolute(href, NormalizeEventUrl(url)) == ParseUrl(url).scheme + "://" + ParseUrl(url).netloc + href
  {
    ParsedHasNoSlash(url);
    LinkOnPage(ParseUrl(url).scheme, ParseUrl(url).netloc, DescriptionsPath, href);
  }
}
