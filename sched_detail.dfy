/** What `_fetch_talk_detail` takes from a talk's detail page.  Fetching
    and HTML parsing are an oracle: each attempt at a link yields the
    parsed page (the parts the function looks at) or a failed request. */
module SchedDetail {
  import opened Common
  import opened Text
  import opened Urls
  import opened VideoIds

  /** A direct child of the event-type container: an element with its tag
      name and its stripped text, or a bare text node. */
  datatype Child = Element(name: string, text: string) | TextNode

  /** The parts of a parsed detail page that matter:
      - `title`: the stripped text of the first `class="name"` element;
      - `description`: the stripped text of the first `tip-description`;
      - `eventType`: the direct children of the first `sched-event-type`;
      - `watchLinks`: the `href`s of the anchors linking to
        `youtube.com/watch` or `youtu.be/`, in page order;
      - `embedSources`: the `src`s of the `youtube.com/embed/` iframes;
      - `deckHref`: the `href` of the first anchor with one inside the
        first `div.sched-file`.
      `None` means the element is not on the page. */
  datatype DetailPage = DetailPage(
    title: Option<string>,
    description: Option<string>,
    eventType: Option<seq<Child>>,
    watchLinks: seq<string>,
    embedSources: seq<string>,
    deckHref: Option<string>)

  datatype PageReply = Page(page: DetailPage) | RequestFailed

  /** The detail page of a link as fetched on a given attempt (1, 2 or 3). */
  type PageFetcher = (string, nat) -> PageReply

  const MaxAttempts: nat := 3

  // ---------------------------------------------------------------------
  // The title retry loop

  /** The first page among attempts `attempt`..3 that has a title, as long
      as every request before it succeeded and had none. */
  function TitledPage(fetch: PageFetcher, link: string, attempt: nat): (r: Option<DetailPage>)
    requires 1 <= attempt <= MaxAttempts
    ensures r.Some? ==> r.value.title.Some?
    decreases MaxAttempts - attempt
  {
    match fetch(link, attempt)
    case RequestFailed => None
    case Page(p) =>
      if p.title.Some? then Some(p)
      else if attempt < MaxAttempts then TitledPage(fetch, link, attempt + 1)
      else None
  }

  /** The retry loop of `_fetch_talk_detail`: request the page until it
      has a title, at most three times; a failed request ends the search. */
  method FindTitledPage(fetch: PageFetcher, link: string) returns (page: Option<DetailPage>, attempts: nat)
    ensures page == TitledPage(fetch, link, 1)
    ensures 1 <= attempts <= MaxAttempts
    ensures forall a :: 1 <= a < attempts ==> fetch(link, a).Page? && fetch(link, a).page.title.None?
    ensures page.Some? ==> fetch(link, attempts) == Page(page.value)
    ensures page.None? ==> attempts == MaxAttempts || fetch(link, attempts).RequestFailed?
  {
    attempts := 1;
    while true
      invariant 1 <= attempts <= MaxAttempts
      invariant forall a :: 1 <= a < attempts ==> fetch(link, a).Page? && fetch(link, a).page.title.None?
      invariant TitledPage(fetch, link, 1) == TitledPage(fetch, link, attempts)
      decreases MaxAttempts - attempts
    {
      var reply := fetch(link, attempts);
      if reply.RequestFailed? {
        return None, attempts;
      }
      if reply.page.title.Some? {
        return Some(reply.page), attempts;
      }
      if attempts == MaxAttempts {
        return None, attempts;
      }
      attempts := attempts + 1;
    }
  }

  // ---------------------------------------------------------------------
  // Event type

  predicate IsAnchor(c: Child) {
    c.Element? && c.name == "a"
  }

  /** The position of the first direct child that is an `<a>`. */
  function FirstAnchor(children: seq<Child>): (r: Option<nat>)
    ensures r.Some? ==> r.value < |children| && IsAnchor(children[r.value])
    ensures r.Some? ==> forall j :: 0 <= j < r.value ==> !IsAnchor(children[j])
    ensures r.None? ==> forall j :: 0 <= j < |children| ==> !IsAnchor(children[j])
  {
    if children == [] then None
    else if IsAnchor(children[0]) then Some(0)
    else match FirstAnchor(children[1..])
      case Some(k) => Some(k + 1)
      case None => None
  }

  /** The loop over the container's children that stops at the first `<a>`. */
  method FindFirstAnchor(children: seq<Child>) returns (found: Option<nat>)
    ensures found == FirstAnchor(children)
  {
    found := None;
    for i := 0 to |children|
      invariant forall j :: 0 <= j < i ==> !IsAnchor(children[j])
    {
      if children[i].Element? && children[i].name == "a" {
        return Some(i);
      }
    }
  }

  /** The event type: the text of the container's first `<a>` child, or
      `None` when there is no container, no such child, or its text is
      empty. */
  function EventTypeOf(container: Option<seq<Child>>): (r: Option<string>)
    ensures r.Some? ==> r.value != ""
  {
    if container.None? then None
    else match FirstAnchor(container.value)
      case None => None
      case Some(k) => if container.value[k].text != "" then Some(container.value[k].text) else None
  }

  // ---------------------------------------------------------------------
  // The video URL

  const EmbedMarker := "youtube.com/embed/"

  /** The characters that end the ID in `youtube\.com/embed/([^?&/]+)`. */
  predicate EndsEmbedId(c: char) {
    c == '?' || c == '&' || c == '/'
  }

  /** The end of the longest run of ID characters starting at `k`. */
  function IdRunEnd(s: string, k: nat): (r: nat)
    requires k <= |s|
    ensures k <= r <= |s|
    ensures forall j :: k <= j < r ==> !EndsEmbedId(s[j])
    ensures r < |s| ==> EndsEmbedId(s[r])
    decreases |s| - k
  {
    if k == |s| || EndsEmbedId(s[k]) then k else IdRunEnd(s, k + 1)
  }

  /** `re.search(r'youtube\.com/embed/([^?&/]+)', src)` from position
      `from`: the first marker followed by at least one ID character, and
      the whole run of them. */
  function EmbedIdFrom(src: string, from: nat): (r: Option<string>)
    requires from <= |src|
    ensures r.Some? ==> r.value != "" && forall j :: 0 <= j < |r.value| ==> !EndsEmbedId(r.value[j])
    decreases |src| - from
  {
    match IndexFrom(src, EmbedMarker, from)
    case None => None
    case Some(i) =>
      var start := i + |EmbedMarker|;
      var end := IdRunEnd(src, start);
      if end > start then Some(src[start..end]) else EmbedIdFrom(src, i + 1)
  }

  function EmbedId(src: string): Option<string>
  {
    EmbedIdFrom(src, 0)
  }

  /** The talk's video: the first watch link when it is not empty, else the
      watch URL of the ID in the first embedded player, else none. */
  function VideoUrlOf(page: DetailPage): (r: Option<string>)
    ensures r.Some? ==> r.value != ""
  {
    if |page.watchLinks| > 0 && page.watchLinks[0] != "" then Some(page.watchLinks[0])
    else if |page.embedSources| > 0 then
      match EmbedId(page.embedSources[0])
      case Some(id) => Some(WatchUrl(id))
      case None => None
    else None
  }

  // ---------------------------------------------------------------------
  // The deck

  /** The deck link: an `href` that is not empty and does not start with
      "http" gets the detail link's `scheme://host` prepended. */
  function DeckOf(deckHref: Option<string>, link: string): (r: Option<string>)
    ensures r.Some? <==> deckHref.Some?
    ensures r.Some? && (deckHref.value == "" || StartsWith(deckHref.value, "http")) ==> r.value == deckHref.value
  {
    match deckHref
    case None => None
    case Some(href) => Some(if href != "" && !StartsWith(href, "http") then BaseUrl(link) + href else href)
  }

  // ---------------------------------------------------------------------
  // _fetch_talk_detail

  /** The talk described by a page that has a title: kept only when it has
      a video. */
  function TalkOfPage(link: string, page: DetailPage): (r: Option<SchedTalk>)
    requires page.title.Some?
  {
    match VideoUrlOf(page)
    case None => None
    case Some(video) =>
      Some(SchedTalk(page.title.value, link, video, OrEmpty(page.description),
                     EventTypeOf(page.eventType), DeckOf(page.deckHref, link)))
  }

  /** `_fetch_talk_detail(link)`. */
  function TalkDetailOf(fetch: PageFetcher, link: string): Option<SchedTalk>
  {
    match TitledPage(fetch, link, 1)
    case None => None
    case Some(page) => TalkOfPage(link, page)
  }

  method FetchTalkDetail(fetch: PageFetcher, link: string) returns (talk: Option<SchedTalk>)
    ensures talk == TalkDetailOf(fetch, link)
  {
    var page, _ := FindTitledPage(fetch, link);
    if page.None? {
      return None;
    }
    var detail := page.value;
    var eventType: Option<string> := None;
    if detail.eventType.Some? {
      var first := FindFirstAnchor(detail.eventType.value);
      if first.Some? {
        var text := detail.eventType.value[first.value].text;
        eventType := if text != "" then Some(text) else None;
      }
    }
    var video := VideoUrlOf(detail);
    if video.None? {
      return None;
    }
    talk := Some(SchedTalk(detail.title.value, link, video.value, OrEmpty(detail.description),
                           eventType, DeckOf(detail.deckHref, link)));
  }

  // ---------------------------------------------------------------------
  // Lemmas

  /** A talk is kept exactly when some attempt within three found a title
      after successful untitled ones and that page has a video; it carries
      the link it was fetched from, a non-empty video URL, and an event
      type only when that is not empty. */
  lemma TalkDetailShape(fetch: PageFetcher, link: string)
    ensures var t := TalkDetailOf(fetch, link);
      (t.Some? <==> TitledPage(fetch, link, 1).Some? && VideoUrlOf(TitledPage(fetch, link, 1).value).Some?)
      && (t.Some? ==>
            (t.value.schedLink == link && t.value.youtubeUrl != ""
             && t.value.title == TitledPage(fetch, link, 1).value.title.value
             && (t.value.eventType.Some? ==> t.value.eventType.value != "")))
  {
  }

  /** A page is found on attempt `k` exactly when the requests before it
      all succeeded without a title and attempt `k` has one. */
  lemma {:induction false} TitledPageAt(fetch: PageFetcher, link: string, attempt: nat, k: nat)
    requires 1 <= attempt <= k <= MaxAttempts
    requires forall a :: attempt <= a < k ==> fetch(link, a).Page? && fetch(link, a).page.title.None?
    requires fetch(link, k).Page? && fetch(link, k).page.title.Some?
    ensures TitledPage(fetch, link, attempt) == Some(fetch(link, k).page)
    decreases k - attempt
  {
    if attempt < k {
      TitledPageAt(fetch, link, attempt + 1, k);
    }
  }

  /** Three successful requests without a title give up. */
  lemma NeverTitled(fetch: PageFetcher, link: string)
    requires forall a :: 1 <= a <= MaxAttempts ==> fetch(link, a).Page? && fetch(link, a).page.title.None?
    ensures TitledPage(fetch, link, 1) == None && TalkDetailOf(fetch, link) == None
  {
    assert fetch(link, 1).Page? && fetch(link, 2).Page? && fetch(link, 3).Page?;
  }

  /** The event type is the text of the first `<a>` child; a later one is
      ignored even when the first one's text is empty. */
  lemma EventTypeIsFirstAnchor(children: seq<Child>, k: nat)
    requires k < |children| && IsAnchor(children[k])
    requires forall j :: 0 <= j < k ==> !IsAnchor(children[j])
    ensures EventTypeOf(Some(children)) == if children[k].text == "" then None else Some(children[k].text)
  {
  }

  /** The ID in an embedded player's source, when the marker is preceded by
      text without a 'y' and followed by the ID and then one of '?', '&',
      '/' or the end. */
  lemma EmbedIdOf(prefix: string, id: string, rest: string)
    requires HasNo(prefix, 'y') && IsPlainId(id)
    requires rest == "" || EndsEmbedId(rest[0])
    ensures EmbedId(prefix + EmbedMarker + id + rest) == Some(id)
  {
    var s := prefix + EmbedMarker + id + rest;
    var i := |prefix|;
    var start := i + |EmbedMarker|;
    assert s[i..start] == EmbedMarker;
    forall j | 0 <= j < i ensures !OccursAt(s, EmbedMarker, j) {
      assert s[j] == prefix[j];
    }
    IndexOfIs(s, EmbedMarker, i);
    forall j | start <= j < start + |id| ensures !EndsEmbedId(s[j]) {
      assert s[j] == id[j - start];
    }
    assert start + |id| < |s| ==> s[start + |id|] == rest[0];
    assert IdRunEnd(s, start) == start + |id|;
    assert s[start..start + |id|] == id;
  }

  /** A page without watch links whose first embedded player shows video
      `id` gives the watch URL of `id`, from which the ID extracts again. */
  lemma EmbeddedVideo(page: DetailPage, prefix: string, id: string, rest: string)
    requires page.watchLinks == [] && |page.embedSources| > 0
    requires page.embedSources[0] == prefix + EmbedMarker + id + rest
    requires HasNo(prefix, 'y') && IsPlainId(id)
    requires rest == "" || EndsEmbedId(rest[0])
    ensures VideoUrlOf(page) == Some(WatchUrl(id))
    ensures ExtractVideoId(VideoUrlOf(page).value) == Ok(id)
  {
    EmbedIdOf(prefix, id, rest);
    WatchUrlRoundTrip(id);
  }

  /** A relative deck link on a detail page `scheme://host...` gets
      `scheme://host` in front. */
  lemma RelativeDeck(scheme: string, host: string, rest: string, href: string)
    requires HasNo(scheme, '/') && HasNo(host, '/')
    requires rest == "" || rest[0] == '/'
    requires href != "" && !StartsWith(href, "http")
    ensures DeckOf(Some(href), scheme + "://" + host + rest) == Some(scheme + "://" + host + href)
  {
    BaseUrlOfUrl(scheme, host, rest);
  }
}
