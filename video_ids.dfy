/** Finding a YouTube video's ID in its URL (`extract_video_id`), as the
    source writes it and as its callers evidently expect it to behave. */
module VideoIds {
  import opened Common
  import opened Text
  import opened Urls

  /** Why no ID could be extracted: the URL is not a YouTube video URL
      (`ValueError`), or it is a `youtube.com/watch` URL whose query has no
      non-blank `v` (`KeyError` from `parse_qs(...)['v']`). */
  datatype IdError = InvalidUrl | MissingVideoParam

  predicate IsYouTubeHost(host: Option<string>) {
    host == Some("www.youtube.com") || host == Some("youtube.com")
  }

  /** `extract_video_id` as written: a `youtube.com/watch` URL gives its
      first `v` value, a `youtu.be` URL gives its path without the leading
      character; any other URL is invalid, and a watch URL without `v`
      fails with the missing-key error. */
  function ExtractVideoIdAsWritten(url: string): (r: Result<string, IdError>)
    ensures r == Err(MissingVideoParam) <==>
      var u := ParseUrl(url); IsYouTubeHost(Hostname(u)) && u.path == "/watch" && QueryValue(u.query, "v").None?
    ensures r == Err(InvalidUrl) <==>
      var u := ParseUrl(url); !(IsYouTubeHost(Hostname(u)) && u.path == "/watch") && Hostname(u) != Some("youtu.be")
    ensures var u := ParseUrl(url); IsYouTubeHost(Hostname(u)) && u.path == "/watch" && QueryValue(u.query, "v").Some? ==>
      r == Ok(QueryValue(u.query, "v").value) && r.value != ""
    ensures var u := ParseUrl(url); Hostname(u) == Some("youtu.be") ==> r == Ok(Drop(u.path, 1))
  {
    IdFromUrl(ParseUrl(url))
  }

  /** The decision of `extract_video_id` on the parsed URL. */
  function IdFromUrl(u: Url): Result<string, IdError>
  {
    var host := Hostname(u);
    if IsYouTubeHost(host) then
      if u.path == "/watch" then
        match QueryValue(u.query, "v")
        case Some(v) => Ok(v)
        case None => Err(MissingVideoParam)
      else Err(InvalidUrl)
    else if host == Some("youtu.be") then Ok(Drop(u.path, 1))
    else Err(InvalidUrl)
  }

  /** `extract_video_id` with a missing `v` reported like every other
      invalid URL, which is what its callers (catching only `ValueError`
      to skip the video) rely on.  The pipelines use this one. */
  function ExtractVideoId(url: string): (r: Result<string, IdError>)
    ensures r.Err? ==> r.error == InvalidUrl
    ensures r.Ok? <==> ExtractVideoIdAsWritten(url).Ok?
    ensures r.Ok? ==> r == ExtractVideoIdAsWritten(url)
  {
    match ExtractVideoIdAsWritten(url)
    case Ok(id) => Ok(id)
    case Err(_) => Err(InvalidUrl)
  }

  /** How a pipeline stage finds a video's ID from its URL; the pipelines
      pass `ExtractVideoId`, and the stages' lemmas hold for any extractor. */
  type IdExtractor = string -> Result<string, IdError>

  /** The URL the playlist listing builds for a video ID. */
  function WatchUrl(id: string): string
  {
    "https" + "://" + "www.youtube.com" + "/watch" + "?" + ("v" + "=" + id)
  }

  /** A character that may appear in an ID the extractor can recover
      unchanged from a query string. */
  predicate IsIdChar(c: char) {
    IsAsciiLetter(c) || IsDigit(c) || c == '_' || c == '-'
  }

  predicate IsPlainId(id: string) {
    id != "" && forall i :: 0 <= i < |id| ==> IsIdChar(id[i])
  }

  // ---------------------------------------------------------------------
  // Lemmas

  /** Extracting from the watch URL of an ID gives the ID back. */
  lemma WatchUrlRoundTrip(id: string)
    requires IsPlainId(id)
    ensures ExtractVideoId(WatchUrl(id)) == Ok(id)
    ensures ExtractVideoIdAsWritten(WatchUrl(id)) == Ok(id)
  {
    var query := "v" + "=" + id;
    WatchParse(query);
    var u := ParseUrl(WatchUrl(id));
    QueryOfOneField("v", id);
    assert QueryValue(u.query, "v") == Some(id);
    assert IdFromUrl(u) == Ok(id);
  }

  /** A `youtu.be` share link gives back the ID in its path, whatever query
      follows it. */
  lemma ShortLinkRoundTrip(id: string, query: string)
    requires IsPlainId(id) && HasNo(query, '#')
    ensures ExtractVideoId("https" + "://" + "youtu.be" + ("/" + id) + "?" + query) == Ok(id)
  {
    var path := "/" + id;
    forall i | 0 <= i < |path| ensures path[i] != '?' && path[i] != '#' && path[i] != ';' {
      if i > 0 { assert path[i] == id[i - 1]; }
    }
    SchemeHttps();
    HostPlain("youtu.be");
    ParseUrlOf("https", "youtu.be", path, query);
    assert Drop(path, 1) == id;
  }

  /** A YouTube URL of any other page, such as a `/shorts/` link, is not a
      video URL to the extractor, whatever follows the page name. */
  lemma ShortsLinkInvalid(id: string)
    ensures ExtractVideoIdAsWritten("https" + "://" + "www.youtube.com" + "/shorts/" + id) == Err(InvalidUrl)
    ensures ExtractVideoId("https" + "://" + "www.youtube.com" + "/shorts/" + id) == Err(InvalidUrl)
  {
    ShortsParse(id);
  }

  /** How a `/shorts/` link parses: a YouTube host, a path other than
      `/watch`. */
  lemma ShortsParse(id: string)
    ensures var u := ParseUrl("https" + "://" + "www.youtube.com" + "/shorts/" + id);
      Hostname(u) == Some("www.youtube.com") && u.path != "/watch"
  {
    var prefix := "/shorts/";
    HasNoOf(prefix, '?');
    HasNoOf(prefix, '#');
    HasNoOf(prefix, ';');
    SchemeHttps();
    HostPlain("www.youtube.com");
    ParsePathPrefix("https", "www.youtube.com", prefix, id);
    var path := ParseUrl("https" + "://" + "www.youtube.com" + prefix + id).path;
    assert path[1] == path[..|prefix|][1] == prefix[1];
  }

  /** As written, a watch URL whose query has no non-blank `v` raises the
      missing-key error, which no caller catches; the corrected extractor
      reports it as an invalid URL. */
  lemma WatchWithoutVideoParam(query: string)
    requires HasNo(query, '#') && QueryValue(query, "v").None?
    ensures ExtractVideoIdAsWritten("https" + "://" + "www.youtube.com" + "/watch" + "?" + query) == Err(MissingVideoParam)
    ensures ExtractVideoId("https" + "://" + "www.youtube.com" + "/watch" + "?" + query) == Err(InvalidUrl)
  {
    WatchParse(query);
  }

  /** The shared link of a video, `https://www.youtube.com/watch?feature=share`
      style, is such a URL. */
  lemma SharedWatchLinkRaises()
    ensures ExtractVideoIdAsWritten("https" + "://" + "www.youtube.com" + "/watch" + "?" + "feature=share") == Err(MissingVideoParam)
  {
    SharedQueryHasNoVideo();
    WatchWithoutVideoParam("feature=share");
  }

  lemma SharedQueryHasNoVideo()
    ensures HasNo("feature=share", '#') && QueryValue("feature=share", "v").None?
  {
    var field := "feature=share";
    HasNoOf(field, '&');
    HasNoOf(field, '#');
    QueryOfField(field, "v");
    SharedFieldNotVideo();
  }

  lemma SharedFieldNotVideo()
    ensures FieldValue("feature=share", "v") == None
  {
    var field := "feature=share";
    assert field[..7] == "feature";
    HasNoOf(field[..7], '=');
    FindAt(field, '=', 7);
  }

  /** How the watch URL of the playlist listing parses. */
  lemma WatchParse(query: string)
    requires HasNo(query, '#')
    ensures var u := ParseUrl("https" + "://" + "www.youtube.com" + "/watch" + "?" + query);
      Hostname(u) == Some("www.youtube.com") && u.path == "/watch" && u.query == query
  {
    var path := "/watch";
    HasNoOf(path, '?');
    HasNoOf(path, '#');
    HasNoOf(path, ';');
    SchemeHttps();
    HostPlain("www.youtube.com");
    ParseUrlOf("https", "www.youtube.com", path, query);
  }

  lemma SchemeHttps()
    ensures IsSchemeName("https")
  {
    var s := "https";
    forall k | 0 <= k < |s| ensures IsSchemeChar(s[k]) && !('A' <= s[k] <= 'Z') {
      assert s[k] in "https";
    }
    LowerUnchanged(s);
  }

  /** The hosts the extractor knows: no delimiter, no user info, no port,
      already lower case, so `hostname` returns them as they are. */
  lemma HostPlain(host: string)
    requires host == "www.youtube.com" || host == "youtu.be"
    ensures HasNo(host, '/') && HasNo(host, '?') && HasNo(host, '#')
    ensures forall scheme, path, params, query, fragment ::
      Hostname(Url(scheme, host, path, params, query, fragment)) == Some(host)
  {
    forall i | 0 <= i < |host|
      ensures host[i] != '/' && host[i] != '?' && host[i] != '#' && host[i] != '@' && host[i] != '[' && host[i] != ':'
      ensures !('A' <= host[i] <= 'Z')
    {
      assert host[i] in "wyoutbe.cm";
    }
    LowerUnchanged(host);
    HostnameOfPlain(host);
  }

  lemma HostnameOfPlain(host: string)
    requires host != ""
    requires HasNo(host, '@') && HasNo(host, '[') && HasNo(host, ':')
    ensures forall scheme, path, params, query, fragment ::
      Hostname(Url(scheme, host, path, params, query, fragment)) == Some(Lower(host))
  {
    forall j | 0 <= j <= |host| ensures !OccursAt(host, "@", j) {
      if j + 1 <= |host| { assert host[j..j + 1] == [host[j]]; }
    }
    assert LastIndexOf(host, "@") == None;
    assert HostInfo(host) == host;
    assert Find(host, '[') == None;
    assert Find(host, ':') == None;
  }

  /** Lower-casing a string without capitals leaves it as it is. */
  lemma LowerUnchanged(s: string)
    requires forall i :: 0 <= i < |s| ==> !('A' <= s[i] <= 'Z')
    ensures Lower(s) == s
  {
  }

  /** The query `name=value` of one field gives back its value. */
  lemma QueryOfOneField(name: string, value: string)
    requires name != "" && IsPlainId(value)
    requires forall i :: 0 <= i < |name| ==> IsIdChar(name[i])
    ensures QueryValue(name + "=" + value, name) == Some(value)
  {
    var field := name + "=" + value;
    forall i | 0 <= i < |field| ensures field[i] != '&' {
      if i < |name| { assert field[i] == name[i]; }
      else if i > |name| { assert field[i] == value[i - |name| - 1]; }
    }
    forall j | 0 <= j < |name| ensures field[j] != '=' { assert field[j] == name[j]; }
    QueryOfField(field, name);
    FindAt(field, '=', |name|);
    assert field[..|name|] == name;
    assert field[|name| + 1..] == value;
  }
}
