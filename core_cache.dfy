/** The three caches of the playlist pipeline: the playlist listing (keyed by
    a digest of the playlist URL), a video's subtitles (keyed by video ID)
    and a video's summary (keyed by video ID and the summarizer's identity
    string). */
module CoreCache {
  import opened Common
  import opened Text
  import opened Summarizers
  import opened Cache

  // ---------------------------------------------------------------------
  // The summarizer's identity string

  /** `str(model)` when the summarizer's model is truthy.  Gemini's model is
      a library object, which is always truthy. */
  function ModelPart(s: Summarizer): Option<string>
  {
    match s
    case Gemini(_, _, text, _) => Some(text)
    case Anthropic(_, m, _) => if m != "" then Some(m) else None
    case OpenAI(_, m, _) => if m != "" then Some(m) else None
    case Ollama(_, m, _, _, _) => if m != "" then Some(m) else None
  }

  /** The class name, then the model and the summary length when truthy. */
  function KeyParts(s: Summarizer): seq<string>
  {
    [ClassName(s)]
    + (if ModelPart(s).Some? then [ModelPart(s).value] else [])
    + (if SummaryLength(s) != 0 then [IntToString(SummaryLength(s))] else [])
  }

  /** `_summarizer_cache_key_parts`: the parts joined by "_" and made safe
      for a file name.  It is made of safe characters only and begins with
      the class name. */
  function SummarizerKey(s: Summarizer): (r: string)
    ensures AllSafe(r)
    ensures StartsWith(r, ClassName(s))
  {
    var parts := KeyParts(s);
    var cls := ClassName(s);
    ClassNameSafe(s);
    if |parts| == 1 then
      Sanitize(cls)
    else
      var rest := "_" + Join(parts[1..], "_");
      assert Join(parts, "_") == cls + rest;
      SanitizeAppend(cls, rest);
      assert Sanitize(Join(parts, "_"))[..|cls|] == cls;
      Sanitize(Join(parts, "_"))
  }

  lemma ClassNameSafe(s: Summarizer)
    ensures AllSafe(ClassName(s)) && Sanitize(ClassName(s)) == ClassName(s)
  {
    var cls := ClassName(s);
    forall i | 0 <= i < |cls| ensures IsSafeChar(cls[i]) {
      assert 'A' <= cls[i] <= 'z' && (cls[i] <= 'Z' || 'a' <= cls[i]);
    }
    SanitizeSafe(cls);
  }

  /** The key is the sanitised text before the length, followed by the
      length's numeral. */
  lemma KeyWithLength(s: Summarizer)
    requires SummaryLength(s) != 0
    ensures SummarizerKey(s) ==
      Sanitize(ClassName(s) + (if ModelPart(s).Some? then "_" + ModelPart(s).value else "") + "_")
      + IntToString(SummaryLength(s))
  {
    var cls, n := ClassName(s), IntToString(SummaryLength(s));
    var parts := KeyParts(s);
    var prefix := cls + (if ModelPart(s).Some? then "_" + ModelPart(s).value else "") + "_";
    if ModelPart(s).Some? {
      var m := ModelPart(s).value;
      assert parts == [cls, m, n];
      assert parts[1..] == [m, n];
      assert parts[1..][1..] == [n];
      assert Join(parts[1..], "_") == m + "_" + n;
      assert Join(parts, "_") == cls + "_" + (m + "_" + n);
      assert Join(parts, "_") == prefix + n;
    } else {
      assert parts == [cls, n];
      assert parts[1..] == [n];
      assert Join(parts, "_") == prefix + n;
    }
    SanitizeAppend(prefix, n);
    SanitizeSafe(n);
  }

  /** Two summarizers of the same class and model but different (non-zero)
      summary lengths have different keys, so they never share summaries. */
  lemma KeyDistinguishesLengths(s1: Summarizer, s2: Summarizer)
    requires ClassName(s1) == ClassName(s2) && ModelPart(s1) == ModelPart(s2)
    requires SummaryLength(s1) != 0 && SummaryLength(s2) != 0
    requires SummaryLength(s1) != SummaryLength(s2)
    ensures SummarizerKey(s1) != SummarizerKey(s2)
  {
    KeyWithLength(s1);
    KeyWithLength(s2);
    var prefix := Sanitize(ClassName(s1) + (if ModelPart(s1).Some? then "_" + ModelPart(s1).value else "") + "_");
    var n1, n2 := IntToString(SummaryLength(s1)), IntToString(SummaryLength(s2));
    if prefix + n1 == prefix + n2 {
      assert n1 == (prefix + n1)[|prefix|..];
      assert n2 == (prefix + n2)[|prefix|..];
      IntToStringInjective(SummaryLength(s1), SummaryLength(s2));
      assert false;
    }
  }

  /** A model name is sanitised along with the rest of the key, so two
      summarizers whose model names differ only in characters outside
      `[A-Za-z0-9._-]` share a key (see `ModelNamesCollide`). */
  lemma KeyModelCollision(s1: Summarizer, s2: Summarizer)
    requires ClassName(s1) == ClassName(s2) && SummaryLength(s1) == SummaryLength(s2)
    requires ModelPart(s1).Some? && ModelPart(s2).Some?
    requires Sanitize(ModelPart(s1).value) == Sanitize(ModelPart(s2).value)
    ensures SummarizerKey(s1) == SummarizerKey(s2)
  {
    var tail := if SummaryLength(s1) != 0 then [IntToString(SummaryLength(s1))] else [];
    assert KeyParts(s1) == [ClassName(s1), ModelPart(s1).value] + tail;
    assert KeyParts(s2) == [ClassName(s1), ModelPart(s2).value] + tail;
    JoinedCollision(ClassName(s1), ModelPart(s1).value, ModelPart(s2).value, tail);
  }

  lemma JoinedCollision(cls: string, m1: string, m2: string, tail: seq<string>)
    requires Sanitize(m1) == Sanitize(m2)
    ensures Sanitize(Join([cls, m1] + tail, "_")) == Sanitize(Join([cls, m2] + tail, "_"))
  {
    var t := if tail == [] then "" else "_" + Join(tail, "_");
    JoinTwo(cls, m1, tail);
    JoinTwo(cls, m2, tail);
    SanitizeThree(cls + "_", m1, t);
    SanitizeThree(cls + "_", m2, t);
  }

  lemma JoinTwo(a: string, b: string, tail: seq<string>)
    ensures Join([a, b] + tail, "_") == (a + "_") + b + (if tail == [] then "" else "_" + Join(tail, "_"))
  {
    var parts := [a, b] + tail;
    assert parts[1..] == [b] + tail;
    assert ([b] + tail)[1..] == tail;
  }

  lemma SanitizeThree(a: string, b: string, c: string)
    ensures Sanitize(a + b + c) == Sanitize(a) + Sanitize(b) + Sanitize(c)
  {
    SanitizeAppend(a + b, c);
    SanitizeAppend(a, b);
  }

  /** Two different model names with the same sanitised form. */
  lemma ModelNamesCollide()
    ensures "gpt/4" != "gpt_4" && Sanitize("gpt/4") == Sanitize("gpt_4")
  {
    assert "gpt/4"[3] != "gpt_4"[3];
    SanitizeAppend("gpt", "/4");
    SanitizeAppend("gpt", "_4");
    SanitizeAppend("/", "4");
    SanitizeAppend("_", "4");
  }

  // ---------------------------------------------------------------------
  // Cache paths (relative to ~/.cache)

  /** The playlist cache file, named after a digest of the playlist URL
      (`hashlib.md5(url).hexdigest()`, an oracle here). */
  function PlaylistPath(digest: string -> string, playlistUrl: string): string
  {
    "summit/playlist_" + digest(playlistUrl) + ".json"
  }

  function SubtitlePath(videoId: string): string
  {
    "subtitles/subtitles_" + videoId + ".txt"
  }

  /** `get_summary_cache_path`. */
  function SummaryPath(videoId: string, s: Summarizer): string
  {
    SummaryFile(videoId, SummarizerKey(s))
  }

  function SummaryFile(videoId: string, key: string): string
  {
    "summit/summaries/summary_" + videoId + "_" + key + ".txt"
  }

  /** A video's summary files for two summarizers are one file exactly
      when the summarizers' keys are equal. */
  lemma KeyedSummaryPaths(id: string, s1: Summarizer, s2: Summarizer)
    ensures SummaryPath(id, s1) == SummaryPath(id, s2) <==> SummarizerKey(s1) == SummarizerKey(s2)
  {
    var k1, k2 := SummarizerKey(s1), SummarizerKey(s2);
    if SummaryFile(id, k1) == SummaryFile(id, k2) {
      KeyInSummaryFile(id, k1);
      KeyInSummaryFile(id, k2);
    }
  }

  /** Where the key sits in a summary file's name. */
  lemma KeyInSummaryFile(id: string, key: string)
    ensures var f := SummaryFile(id, key);
      |f| == |id| + |key| + 30 && f[26 + |id|..|f| - 4] == key
  {
  }

  /** The three namespaces never share a file, and each video has its own
      subtitle file. */
  lemma NamespacesDisjoint(digest: string -> string, url: string, id1: string, id2: string, s: Summarizer)
    ensures PlaylistPath(digest, url) != SubtitlePath(id1)
    ensures PlaylistPath(digest, url) != SummaryPath(id2, s)
    ensures SubtitlePath(id1) != SummaryPath(id2, s)
    ensures SubtitlePath(id1) == SubtitlePath(id2) ==> id1 == id2
  {
    PlaylistPathHead(digest, url);
    SubtitlePathHead(id1);
    SummaryPathHead(id2, SummarizerKey(s));
    if SubtitlePath(id1) == SubtitlePath(id2) {
      SubtitleIdAt(id1);
      SubtitleIdAt(id2);
    }
  }

  lemma PlaylistPathHead(digest: string -> string, url: string)
    ensures |PlaylistPath(digest, url)| > 8
    ensures PlaylistPath(digest, url)[2] == 'm' && PlaylistPath(digest, url)[7] == 'p'
  {
  }

  lemma SubtitlePathHead(id: string)
    ensures |SubtitlePath(id)| > 8 && SubtitlePath(id)[2] == 'b'
  {
  }

  lemma SummaryPathHead(id: string, key: string)
    ensures |SummaryFile(id, key)| > 8
    ensures SummaryFile(id, key)[2] == 'm' && SummaryFile(id, key)[7] == 's'
  {
  }

  lemma SubtitleIdAt(id: string)
    ensures |SubtitlePath(id)| == |id| + 24 && SubtitlePath(id)[20..20 + |id|] == id
  {
  }

  // ---------------------------------------------------------------------
  // Loading and saving

  /** `load_playlist_cache`: the cached listing, or `None` on a miss or an
      unreadable file. */
  function LoadPlaylist(files: Files, digest: string -> string, playlistUrl: string): (r: Option<seq<VideoInfo>>)
    ensures r.Some? <==> PlaylistPath(digest, playlistUrl) in files && files[PlaylistPath(digest, playlistUrl)].VideoList?
  {
    ReadVideos(files, PlaylistPath(digest, playlistUrl))
  }

  method SavePlaylist(cache: CacheStore, digest: string -> string, playlistUrl: string, videos: seq<VideoInfo>)
    modifies cache
    ensures cache.files == Stored(old(cache.files), cache.readOnly, PlaylistPath(digest, playlistUrl), VideoList(videos))
  {
    cache.Write(PlaylistPath(digest, playlistUrl), VideoList(videos));
  }

  /** `load_subtitle_cache`. */
  function LoadSubtitles(files: Files, videoId: string): (r: Option<string>)
    ensures r.Some? <==> SubtitlePath(videoId) in files && files[SubtitlePath(videoId)].TextFile?
  {
    ReadText(files, SubtitlePath(videoId))
  }

  method SaveSubtitles(cache: CacheStore, videoId: string, subtitles: string)
    modifies cache
    ensures cache.files == Stored(old(cache.files), cache.readOnly, SubtitlePath(videoId), TextFile(subtitles))
  {
    cache.Write(SubtitlePath(videoId), TextFile(subtitles));
  }

  /** `load_summary_cache`. */
  function LoadSummary(files: Files, videoId: string, s: Summarizer): (r: Option<string>)
    ensures r.Some? <==> SummaryPath(videoId, s) in files && files[SummaryPath(videoId, s)].TextFile?
  {
    ReadText(files, SummaryPath(videoId, s))
  }

  method SaveSummary(cache: CacheStore, videoId: string, s: Summarizer, summary: string)
    modifies cache
    ensures cache.files == Stored(old(cache.files), cache.readOnly, SummaryPath(videoId, s), TextFile(summary))
  {
    cache.Write(SummaryPath(videoId, s), TextFile(summary));
  }

  /** After saving a summary, loading it for the same video with any
      summarizer of equal key returns it, and the subtitles and other
      summaries are untouched. */
  lemma SummaryRoundTrip(files: Files, readOnly: set<string>, videoId: string, s: Summarizer, s2: Summarizer, summary: string)
    requires SummaryPath(videoId, s) !in readOnly
    requires SummarizerKey(s2) == SummarizerKey(s)
    ensures LoadSummary(Stored(files, readOnly, SummaryPath(videoId, s), TextFile(summary)), videoId, s2) == Some(summary)
  {
  }

  /** Saving one video's summary leaves every subtitle file and every other
      video's summary as it was. */
  lemma SummarySaveIsolated(files: Files, readOnly: set<string>, videoId: string, s: Summarizer, summary: string,
                            other: string, s2: Summarizer)
    requires SummaryPath(other, s2) != SummaryPath(videoId, s)
    ensures var f := Stored(files, readOnly, SummaryPath(videoId, s), TextFile(summary));
      LoadSubtitles(f, other) == LoadSubtitles(files, other)
      && LoadSummary(f, other, s2) == LoadSummary(files, other, s2)
  {
    NamespacesDisjoint(x => x, "", other, videoId, s);
  }

  /** After saving subtitles, loading them returns them (when writable). */
  lemma SubtitleRoundTrip(files: Files, readOnly: set<string>, videoId: string, subtitles: string)
    requires SubtitlePath(videoId) !in readOnly
    ensures LoadSubtitles(Stored(files, readOnly, SubtitlePath(videoId), TextFile(subtitles)), videoId) == Some(subtitles)
  {
  }

  /** After saving a playlist listing, loading it returns it (when writable). */
  lemma PlaylistRoundTrip(files: Files, readOnly: set<string>, digest: string -> string, url: string, videos: seq<VideoInfo>)
    requires PlaylistPath(digest, url) !in readOnly
    ensures LoadPlaylist(Stored(files, readOnly, PlaylistPath(digest, url), VideoList(videos)), digest, url) == Some(videos)
  {
  }
}
