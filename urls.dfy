/** A simplified model of the parts of Python's `urllib.parse` the source
    relies on: `urlparse` (scheme, netloc, path, params, query, fragment and
    `hostname`) and `parse_qs`, plus the `'/'.join(url.split('/')[:3])`
    idiom the scraper uses to find a page's `scheme://host`. */
module Urls {
  import opened Common
  import opened Text

  datatype Url = Url(scheme: string, netloc: string, path: string, params: string, query: string, fragment: string)

  predicate IsAsciiLetter(c: char) { ('A' <= c <= 'Z') || ('a' <= c <= 'z') }

  predicate IsSchemeChar(c: char) { IsAsciiLetter(c) || IsDigit(c) || c == '+' || c == '-' || c == '.' }

  predicate HasNo(s: string, c: char) {
    forall i :: 0 <= i < |s| ==> s[i] != c
  }

  lemma HasNoOf(s: string, c: char)
    requires c !in s
    ensures HasNo(s, c)
  {
  }

  /** The first index of `c` in `s`. */
  function Find(s: string, c: char): (r: Option<nat>)
    ensures r.Some? ==> r.value < |s| && s[r.value] == c
    ensures r.Some? ==> forall j :: 0 <= j < r.value ==> s[j] != c
    ensures r.None? <==> HasNo(s, c)
  {
    var r := IndexOf(s, [c]);
    assert r.Some? ==> s[r.value..r.value + 1] == [c];
    forall i | 0 <= i < |s| && (r.None? || i < r.value) ensures s[i] != c {
      assert !OccursAt(s, [c], i);
      assert s[i..i + 1] == [s[i]];
    }
    r
  }

  /** `Find` is determined by the first occurrence. */
  lemma FindAt(s: string, c: char, i: nat)
    requires i < |s| && s[i] == c
    requires forall j :: 0 <= j < i ==> s[j] != c
    ensures Find(s, c) == Some(i)
  {
  }

  /** `url.split(c, 1)` when `c in url`: the text before and after the first `c`. */
  function SplitOnce(s: string, c: char): (string, string)
  {
    match Find(s, c)
    case Some(i) => (s[..i], s[i + 1..])
    case None => (s, "")
  }

  /** The scheme step of `urlsplit`: a non-empty prefix before the first
      colon, starting with an ASCII letter and made of scheme characters, is
      the (lower-cased) scheme. */
  function SplitScheme(s: string): (string, string)
  {
    match Find(s, ':')
    case Some(i) =>
      if i > 0 && IsAsciiLetter(s[0]) && (forall k :: 0 <= k < i ==> IsSchemeChar(s[k]))
      then (Lower(s[..i]), s[i + 1..])
      else ("", s)
    case None => ("", s)
  }

  predicate IsNetlocEnd(c: char) { c == '/' || c == '?' || c == '#' }

  /** The first index at or after `k` holding '/', '?' or '#', or `|s|`. */
  function NetlocEnd(s: string, k: nat): (r: nat)
    requires k <= |s|
    ensures k <= r <= |s|
    ensures forall j :: k <= j < r ==> !IsNetlocEnd(s[j])
    ensures r < |s| ==> IsNetlocEnd(s[r])
    decreases |s| - k
  {
    if k == |s| || IsNetlocEnd(s[k]) then k else NetlocEnd(s, k + 1)
  }

  /** The schemes for which `urlparse` splits `;params` off the path. */
  const UsesParams: set<string> := {"", "ftp", "hdl", "prospero", "http", "imap", "https", "shttp",
    "rtsp", "rtsps", "rtspu", "sip", "sips", "mms", "sftp", "tel"}

  /** `_splitparams`: the parameters start at the first ';' after the last '/'. */
  function SplitParams(path: string): (string, string)
  {
    match LastIndexOf(path, "/")
    case Some(slash) =>
      (match IndexFrom(path, ";", slash)
       case Some(i) => (path[..i], path[i + 1..])
       case None => (path, ""))
    case None =>
      (match Find(path, ';')
       case Some(i) => (path[..i], path[i + 1..])
       case None => (path, ""))
  }

  /** `urlparse(s)`. */
  function ParseUrl(s: string): Url
  {
    var (scheme, afterScheme) := SplitScheme(s);
    var (netloc, afterNetloc) :=
      if StartsWith(afterScheme, "//")
      then var e := NetlocEnd(afterScheme, 2); (afterScheme[2..e], afterScheme[e..])
      else ("", afterScheme);
    var (beforeFragment, fragment) := SplitOnce(afterNetloc, '#');
    var (pathAndParams, query) := SplitOnce(beforeFragment, '?');
    var (path, params) := if scheme in UsesParams then SplitParams(pathAndParams) else (pathAndParams, "");
    Url(scheme, netloc, path, params, query, fragment)
  }

  /** The part after the last '@' of the network location. */
  function HostInfo(netloc: string): string
  {
    match LastIndexOf(netloc, "@")
    case Some(i) => netloc[i + 1..]
    case None => netloc
  }

  /** `urlparse(s).hostname`: the lower-cased host without user info or
      port, or None when it is empty. */
  function Hostname(u: Url): (r: Option<string>)
    ensures r.Some? ==> r.value != ""
  {
    var info := HostInfo(u.netloc);
    var host :=
      match Find(info, '[')
      case Some(i) => SplitOnce(info[i + 1..], ']').0
      case None => SplitOnce(info, ':').0;
    if host == "" then None else Some(Lower(host))
  }

  /** The value of one `name=value` field of a query string, when its name
      is `name` and its value is not blank (`parse_qs` drops blank values and
      fields without '='). */
  function FieldValue(field: string, name: string): Option<string>
  {
    match Find(field, '=')
    case Some(i) => if field[..i] == name && field[i + 1..] != "" then Some(field[i + 1..]) else None
    case None => None
  }

  function FirstFieldValue(fields: seq<string>, name: string): (r: Option<string>)
    ensures r.Some? ==> r.value != "" && exists k :: 0 <= k < |fields| && FieldValue(fields[k], name) == r
    ensures r.None? <==> forall k :: 0 <= k < |fields| ==> FieldValue(fields[k], name).None?
    decreases |fields|
  {
    if fields == [] then None
    else if FieldValue(fields[0], name).Some? then FieldValue(fields[0], name)
    else
      var r := FirstFieldValue(fields[1..], name);
      assert forall k :: 1 <= k < |fields| ==> fields[k] == fields[1..][k - 1];
      r
  }

  /** `parse_qs(query).get(name, [None])[0]`: the first non-blank value
      given for `name`. */
  function QueryValue(query: string, name: string): (r: Option<string>)
    ensures r.Some? ==> r.value != ""
  {
    FirstFieldValue(Split(query, "&"), name)
  }

  /** `'/'.join(link.split('/')[:3])`: the first three '/'-separated
      segments, which for `scheme://host/...` is `scheme://host`. */
  function BaseUrl(link: string): string
  {
    Join(Take(Split(link, "/"), 3), "/")
  }

  /** A link that does not start with "http" is made absolute by prefixing the
      `scheme://host` of the page it was found on. */
  function MakeAbsolute(href: string, page: string): (r: string)
    ensures StartsWith(href, "http") ==> r == href
    ensures !StartsWith(href, "http") ==> r == BaseUrl(page) + href
  {
    if StartsWith(href, "http") then href else BaseUrl(page) + href
  }

  // ---------------------------------------------------------------------
  // Lemmas about well-formed URLs

  predicate IsSchemeName(scheme: string) {
    scheme != [] && IsAsciiLetter(scheme[0]) && (forall k :: 0 <= k < |scheme| ==> IsSchemeChar(scheme[k]))
    && Lower(scheme) == scheme
  }

  /** For `scheme://host/path`, the base URL is `scheme://host`. */
  lemma BaseUrlOfUrl(scheme: string, host: string, rest: string)
    requires HasNo(scheme, '/') && HasNo(host, '/')
    requires rest == "" || rest[0] == '/'
    ensures BaseUrl(scheme + "://" + host + rest) == scheme + "://" + host
  {
    var tail := SplitUrl(scheme, host, rest);
    JoinFirstThree(scheme + ":", "", host, tail);
    assert scheme + "://" + host == (scheme + ":") + "/" + "" + "/" + host;
  }

  lemma SplitUrl(scheme: string, host: string, rest: string) returns (tail: seq<string>)
    requires HasNo(scheme, '/') && HasNo(host, '/')
    requires rest == "" || rest[0] == '/'
    ensures Split(scheme + "://" + host + rest, "/") == [scheme + ":", "", host] + tail
  {
    var hr := host + rest;
    tail := SplitHost(host, rest);
    SplitLeadingSlash(hr);
    SplitAfterColon(scheme, "/" + hr);
    UrlShape(scheme, host, rest);
    ConsThree(scheme + ":", "", host, tail);
  }

  lemma UrlShape(scheme: string, host: string, rest: string)
    ensures scheme + "://" + host + rest == (scheme + ":") + "/" + ("/" + (host + rest))
  {
    assert "://" == ":" + "/" + "/";
    Regroup(scheme, ":", "/", "/", host + rest);
    assert scheme + "://" + host + rest == scheme + "://" + (host + rest);
  }

  lemma Regroup<T>(a: seq<T>, b: seq<T>, c: seq<T>, d: seq<T>, e: seq<T>)
    ensures a + (b + c + d) + e == (a + b) + c + (d + e)
  {
  }

  lemma SplitLeadingSlash(s: string)
    ensures Split("/" + s, "/") == [""] + Split(s, "/")
  {
    SplitFirst("", s);
    assert "" + "/" + s == "/" + s;
  }

  lemma SplitAfterColon(scheme: string, s: string)
    requires HasNo(scheme, '/')
    ensures Split((scheme + ":") + "/" + s, "/") == [scheme + ":"] + Split(s, "/")
  {
    assert HasNo(scheme + ":", '/');
    SplitFirst(scheme + ":", s);
  }

  lemma ConsThree<T>(a: T, b: T, c: T, t: seq<T>)
    ensures [a] + ([b] + ([c] + t)) == [a, b, c] + t
  {
  }

  lemma SplitHost(host: string, rest: string) returns (tail: seq<string>)
    requires HasNo(host, '/')
    requires rest == "" || rest[0] == '/'
    ensures Split(host + rest, "/") == [host] + tail
  {
    if rest == "" {
      SplitWhole(host);
      tail := [];
      assert host + rest == host;
    } else {
      assert host + rest == host + "/" + rest[1..];
      SplitFirst(host, rest[1..]);
      tail := Split(rest[1..], "/");
    }
  }

  lemma JoinFirstThree(a: string, b: string, c: string, tail: seq<string>)
    ensures Join(Take([a, b, c] + tail, 3), "/") == a + "/" + b + "/" + c
  {
    var parts := Take([a, b, c] + tail, 3);
    assert parts == [a, b, c];
    assert parts[1..] == [b, c];
    assert [b, c][1..] == [c];
    assert Join([c], "/") == c;
    assert Join([b, c], "/") == b + "/" + c;
    assert Join(parts, "/") == a + "/" + (b + "/" + c);
  }

  /** Splitting at a first separator. */
  lemma SplitFirst(a: string, b: string)
    requires HasNo(a, '/')
    ensures Split(a + "/" + b, "/") == [a] + Split(b, "/")
  {
    var s := a + "/" + b;
    assert s[|a|..|a| + 1] == "/";
    forall j | 0 <= j < |a| ensures !OccursAt(s, "/", j) {
      assert s[j] == a[j];
      assert s[j..j + 1] == [s[j]];
    }
    IndexOfIs(s, "/", |a|);
    assert s[..|a|] == a;
    assert s[|a| + 1..] == b;
  }

  lemma SplitWhole(a: string)
    requires HasNo(a, '/')
    ensures Split(a, "/") == [a]
  {
    SplitWithout(a, '/');
  }

  /** A string without the separator splits into itself alone. */
  lemma SplitWithout(a: string, c: char)
    requires HasNo(a, c)
    ensures Split(a, [c]) == [a]
  {
    NoOccurrence(a, c, 0);
  }

  /** A query without `&` is a single field. */
  lemma QueryOfField(field: string, name: string)
    requires HasNo(field, '&')
    ensures QueryValue(field, name) == FieldValue(field, name)
  {
    SplitWithout(field, '&');
  }

  /** `urlparse` recovers the parts of `scheme://host/path?query` when the
      parts contain none of the delimiters that end them. */
  lemma ParseUrlOf(scheme: string, host: string, path: string, query: string)
    requires IsSchemeName(scheme)
    requires HasNo(host, '/') && HasNo(host, '?') && HasNo(host, '#')
    requires path != [] && path[0] == '/' && HasNo(path, '?') && HasNo(path, '#') && HasNo(path, ';')
    requires HasNo(query, '#')
    ensures ParseUrl(scheme + "://" + host + path + "?" + query) == Url(scheme, host, path, "", query, "")
  {
    var s := scheme + "://" + host + path + "?" + query;
    var rest := path + "?" + query;
    var after := "//" + host + rest;
    assert s == scheme + ":" + after;
    SchemeOf(scheme, after);
    NetlocOf(host, rest);
    QueryOf(path, query);
    ParamsOf(path);
  }

  /** `urlparse` of `scheme://host` followed by a path that starts with
      `prefix`: the network location is the host and the path still starts
      with `prefix` when `prefix` holds none of the delimiters that end a
      path, whatever follows it. */
  lemma ParsePathPrefix(scheme: string, host: string, prefix: string, rest: string)
    requires IsSchemeName(scheme)
    requires HasNo(host, '/') && HasNo(host, '?') && HasNo(host, '#')
    requires prefix != [] && prefix[0] == '/' && HasNo(prefix, '?') && HasNo(prefix, '#') && HasNo(prefix, ';')
    ensures var u := ParseUrl(scheme + "://" + host + prefix + rest);
      u.scheme == scheme && u.netloc == host && |prefix| <= |u.path| && u.path[..|prefix|] == prefix
  {
    var tail := prefix + rest;
    var after := "//" + host + tail;
    assert scheme + "://" + host + prefix + rest == scheme + ":" + after;
    SchemeOf(scheme, after);
    NetlocOf(host, tail);
    assert tail[..|prefix|] == prefix;
    var beforeFragment := SplitOnce(tail, '#').0;
    SplitOnceKeepsPrefix(tail, '#', prefix);
    SplitOnceKeepsPrefix(beforeFragment, '?', prefix);
    SplitParamsKeepsPrefix(SplitOnce(beforeFragment, '?').0, prefix);
  }

  /** The text before the first `c` still starts with a prefix free of `c`. */
  lemma SplitOnceKeepsPrefix(s: string, c: char, prefix: string)
    requires |prefix| <= |s| && s[..|prefix|] == prefix && HasNo(prefix, c)
    ensures var r := SplitOnce(s, c).0; |prefix| <= |r| && r[..|prefix|] == prefix
  {
    forall j | 0 <= j < |prefix| ensures s[j] != c { assert s[j] == prefix[j]; }
    match Find(s, c)
    case Some(i) => assert s[..i][..|prefix|] == prefix;
    case None =>
  }

  /** Splitting off `;params` keeps a leading `/...` prefix free of ';'. */
  lemma SplitParamsKeepsPrefix(path: string, prefix: string)
    requires |prefix| <= |path| && path[..|prefix|] == prefix
    requires prefix != [] && prefix[0] == '/' && HasNo(prefix, ';')
    ensures var r := SplitParams(path).0; |prefix| <= |r| && r[..|prefix|] == prefix
  {
    assert path[0..1] == "/";
    assert OccursAt(path, "/", 0);
    var slash := LastIndexOf(path, "/").value;
    forall j | 0 <= j < |prefix| ensures !OccursAt(path, ";", j) {
      assert path[j] == prefix[j];
      assert path[j..j + 1] == [path[j]];
    }
    match IndexFrom(path, ";", slash)
    case Some(i) => assert path[..i][..|prefix|] == prefix;
    case None =>
  }

  /** The scheme step takes a scheme name off the front. */
  lemma SchemeOf(scheme: string, after: string)
    requires IsSchemeName(scheme)
    ensures SplitScheme(scheme + ":" + after) == (scheme, after)
  {
    var s := scheme + ":" + after;
    forall j | 0 <= j < |scheme| ensures s[j] != ':' && IsSchemeChar(s[j]) {
      assert s[j] == scheme[j];
      assert IsSchemeChar(scheme[j]);
    }
    FindAt(s, ':', |scheme|);
    assert s[0] == scheme[0];
    assert s[..|scheme|] == scheme;
    assert s[|scheme| + 1..] == after;
  }

  /** The network location runs from "//" up to the first '/'. */
  lemma NetlocOf(host: string, rest: string)
    requires HasNo(host, '/') && HasNo(host, '?') && HasNo(host, '#')
    requires rest != [] && rest[0] == '/'
    ensures var after := "//" + host + rest;
      StartsWith(after, "//") && NetlocEnd(after, 2) == 2 + |host|
      && after[2..2 + |host|] == host && after[2 + |host|..] == rest
  {
    var after := "//" + host + rest;
    var e := 2 + |host|;
    assert after[..2] == "//";
    forall j | 2 <= j < e ensures !IsNetlocEnd(after[j]) { assert after[j] == host[j - 2]; }
    assert after[e] == rest[0];
    NetlocEndAt(after, 2, e);
    assert after[2..e] == host;
    assert after[e..] == rest;
  }

  /** Fragment and query steps on `path?query` without a '#'. */
  lemma QueryOf(path: string, query: string)
    requires HasNo(path, '?') && HasNo(path, '#') && HasNo(query, '#')
    ensures SplitOnce(path + "?" + query, '#') == (path + "?" + query, "")
    ensures SplitOnce(path + "?" + query, '?') == (path, query)
  {
    var rest := path + "?" + query;
    forall i | 0 <= i < |rest| ensures rest[i] != '#' {
      if i < |path| { assert rest[i] == path[i]; }
      else if i > |path| { assert rest[i] == query[i - |path| - 1]; }
    }
    forall j | 0 <= j < |path| ensures rest[j] != '?' { assert rest[j] == path[j]; }
    FindAt(rest, '?', |path|);
    assert rest[..|path|] == path;
    assert rest[|path| + 1..] == query;
  }

  /** A path without ';' has no parameters. */
  lemma ParamsOf(path: string)
    requires path != [] && path[0] == '/' && HasNo(path, ';')
    ensures SplitParams(path) == (path, "")
  {
    var slash := LastIndexOf(path, "/");
    assert path[0..1] == "/";
    assert OccursAt(path, "/", 0);
    assert slash.Some?;
    NoOccurrence(path, ';', slash.value);
  }

  /** A character that does not occur is not found from any position. */
  lemma NoOccurrence(s: string, c: char, k: nat)
    requires HasNo(s, c) && k <= |s|
    ensures IndexFrom(s, [c], k) == None
  {
    forall j | 0 <= j <= |s| ensures !OccursAt(s, [c], j) {
      if j + 1 <= |s| { assert s[j..j + 1] == [s[j]]; }
    }
  }

  lemma NetlocEndAt(s: string, k: nat, e: nat)
    requires k <= e <= |s|
    requires forall j :: k <= j < e ==> !IsNetlocEnd(s[j])
    requires e == |s| || IsNetlocEnd(s[e])
    ensures NetlocEnd(s, k) == e
    decreases e - k
  {
    if k < e {
      NetlocEndAt(s, k + 1, e);
    }
  }
}
