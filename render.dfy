/** The renderers of `summit/render.py`: Markdown, the Marp slide deck and
    the per-talk part of the HTML page.  The output mapping is given as the
    sequence of its items in insertion order; every renderer first sorts
    it, stably, by the records' `index`. */
module Render {
  import opened Common
  import opened Text

  /** One `(url, info)` item of the output mapping. */
  datatype Item = Item(url: string, record: TalkRecord)

  // ---------------------------------------------------------------------
  // Sorting by index (`sorted(data.items(), key=lambda x: x[1]["index"])`)

  predicate SortedByIndex(s: seq<Item>) {
    forall i, j :: 0 <= i < j < |s| ==> s[i].record.index <= s[j].record.index
  }

  /** The items whose record has index `k`, in their order in `s`. */
  function WithIndex(s: seq<Item>, k: int): (r: seq<Item>)
    ensures forall i :: 0 <= i < |r| ==> r[i].record.index == k
    decreases |s|
  {
    if s == [] then [] else (if s[0].record.index == k then [s[0]] else []) + WithIndex(s[1..], k)
  }

  /** Insert `x` behind every item whose index is not greater than its own. */
  function InsertByIndex(x: Item, s: seq<Item>): (r: seq<Item>)
    ensures |r| == |s| + 1
    ensures r[0] == x || (s != [] && r[0] == s[0])
    decreases |s|
  {
    if s == [] then [x]
    else if x.record.index < s[0].record.index then [x] + s
    else [s[0]] + InsertByIndex(x, s[1..])
  }

  /** Python's stable `sorted`, as an insertion sort that inserts the
      items from first to last. */
  function SortByIndex(s: seq<Item>): (r: seq<Item>)
    ensures |r| == |s|
    decreases |s|
  {
    if s == [] then [] else InsertByIndex(s[|s| - 1], SortByIndex(s[..|s| - 1]))
  }

  lemma {:induction false} InsertPermutes(x: Item, s: seq<Item>)
    ensures multiset(InsertByIndex(x, s)) == multiset(s) + multiset{x}
    decreases |s|
  {
    if s != [] && x.record.index >= s[0].record.index {
      InsertPermutes(x, s[1..]);
      assert s == [s[0]] + s[1..];
    }
  }

  lemma {:induction false} InsertSorted(x: Item, s: seq<Item>)
    requires SortedByIndex(s)
    ensures SortedByIndex(InsertByIndex(x, s))
    decreases |s|
  {
    if s != [] && x.record.index >= s[0].record.index {
      InsertSorted(x, s[1..]);
      var t := InsertByIndex(x, s[1..]);
      assert t[0] == x || t[0] == s[1];
    }
  }

  lemma WithIndexEmpty(s: seq<Item>, k: int)
    requires SortedByIndex(s) && s != [] && k < s[0].record.index
    ensures WithIndex(s, k) == []
    decreases |s|
  {
    if |s| > 1 {
      WithIndexEmpty(s[1..], k);
    }
  }

  lemma {:induction false} WithIndexAppend(a: seq<Item>, b: seq<Item>, k: int)
    ensures WithIndex(a + b, k) == WithIndex(a, k) + WithIndex(b, k)
    decreases |a|
  {
    if a == [] {
      assert a + b == b;
    } else {
      assert (a + b)[1..] == a[1..] + b;
      WithIndexAppend(a[1..], b, k);
    }
  }

  lemma {:induction false} InsertKeepsOrder(x: Item, s: seq<Item>, k: int)
    requires SortedByIndex(s)
    ensures WithIndex(InsertByIndex(x, s), k) == WithIndex(s, k) + WithIndex([x], k)
    decreases |s|
  {
    if s == [] {
    } else if x.record.index < s[0].record.index {
      InsertFrontKeepsOrder(x, s, k);
    } else {
      var t := InsertByIndex(x, s[1..]);
      InsertKeepsOrder(x, s[1..], k);
      assert ([s[0]] + t)[1..] == t;
      var h := if s[0].record.index == k then [s[0]] else [];
      assert WithIndex([s[0]] + t, k) == h + WithIndex(t, k);
      SeqAssoc(h, WithIndex(s[1..], k), WithIndex([x], k));
    }
  }

  lemma InsertFrontKeepsOrder(x: Item, s: seq<Item>, k: int)
    requires SortedByIndex(s) && s != [] && x.record.index < s[0].record.index
    ensures WithIndex([x] + s, k) == WithIndex(s, k) + WithIndex([x], k)
  {
    assert ([x] + s)[1..] == s;
    if x.record.index == k {
      WithIndexEmpty(s, k);
    }
  }

  /** The sort is correct and stable: its result is ordered by index, is a
      permutation of the items, and keeps the items of each index in their
      original order. */
  lemma {:induction false} SortByIndexCorrect(s: seq<Item>)
    ensures SortedByIndex(SortByIndex(s))
    ensures multiset(SortByIndex(s)) == multiset(s)
    ensures forall k :: WithIndex(SortByIndex(s), k) == WithIndex(s, k)
    decreases |s|
  {
    if s != [] {
      var p, x := s[..|s| - 1], s[|s| - 1];
      SortByIndexCorrect(p);
      InsertSorted(x, SortByIndex(p));
      InsertPermutes(x, SortByIndex(p));
      assert s == p + [x];
      forall k ensures WithIndex(SortByIndex(s), k) == WithIndex(s, k) {
        SortStep(p, x, k);
      }
    }
  }

  lemma SortStep(p: seq<Item>, x: Item, k: int)
    requires SortedByIndex(SortByIndex(p)) && WithIndex(SortByIndex(p), k) == WithIndex(p, k)
    ensures WithIndex(SortByIndex(p + [x]), k) == WithIndex(p + [x], k)
  {
    assert (p + [x])[..|p|] == p;
    InsertKeepsOrder(x, SortByIndex(p), k);
    WithIndexAppend(p, [x], k);
  }

  // ---------------------------------------------------------------------
  // Sequences of strings

  /** `"".join(parts)`. */
  function Concat(parts: seq<string>): string
    decreases |parts|
  {
    if parts == [] then "" else Concat(parts[..|parts| - 1]) + parts[|parts| - 1]
  }

  lemma JoinHead(parts: seq<string>, sep: string)
    requires parts != []
    ensures StartsWith(Join(parts, sep), parts[0])
  {
  }

  /** Appending one more part to a join puts the separator before it only
      when there was a part already. */
  lemma {:induction false} JoinSnoc(parts: seq<string>, x: string, sep: string)
    ensures Join(parts + [x], sep) == Join(parts, sep) + (if parts != [] then sep else "") + x
    decreases |parts|
  {
    if |parts| >= 1 {
      assert (parts + [x])[1..] == parts[1..] + [x];
      JoinSnoc(parts[1..], x, sep);
    }
  }

  // ---------------------------------------------------------------------
  // The link line shared by the Markdown and Marp renderers

  /** `[Event](<sched_link>) | [Youtube](<url>)`, then ` | [Deck](<deck>)`
      when the deck URL is truthy and ` | <event type>` when the event type
      is truthy. */
  function LinkLine(url: string, schedLink: string, r: TalkRecord): (line: string)
    ensures var base := "[Event](" + schedLink + ") | [Youtube](" + url + ")";
      StartsWith(line, base)
      && |line| == |base| + (if Truthy(r.deckUrl) then |r.deckUrl.value| + 11 else 0)
                          + (if Truthy(r.eventType) then |r.eventType.value| + 3 else 0)
      && (Truthy(r.deckUrl) ==> line[|base|..|base| + |r.deckUrl.value| + 11] == " | [Deck](" + r.deckUrl.value + ")")
      && (Truthy(r.eventType) ==> line[|line| - |r.eventType.value| - 3..] == " | " + r.eventType.value)
  {
    var base := "[Event](" + schedLink + ") | [Youtube](" + url + ")";
    var deck := if Truthy(r.deckUrl) then " | [Deck](" + r.deckUrl.value + ")" else "";
    var kind := if Truthy(r.eventType) then " | " + r.eventType.value else "";
    assert (base + deck + kind)[..|base|] == base;
    assert (base + deck + kind)[|base|..|base| + |deck|] == deck;
    assert (base + deck + kind)[|base| + |deck|..] == kind;
    base + deck + kind
  }

  // ---------------------------------------------------------------------
  // Markdown (`render_markdown`)

  /** The section of one talk: its title, the link line when the record
      has a `sched_link` key, its summary and a closing rule. */
  function Section(it: Item): (s: string)
    ensures StartsWith(s, "## " + it.record.title)
  {
    var line := if it.record.schedLink.Some? then "\n\n" + LinkLine(it.url, it.record.schedLink.value, it.record) else "";
    var s := "## " + it.record.title + line + "\n\n" + it.record.summary + "\n\n---";
    assert s[..|"## " + it.record.title|] == "## " + it.record.title;
    s
  }

  /** The header part, present only for a non-empty title. */
  function MarkdownHeading(title: string): seq<string> {
    if title != "" then ["# " + title + "\n\n---\n\n"] else []
  }

  function Sections(s: seq<Item>): (r: seq<string>)
    ensures |r| == |s|
    decreases |s|
  {
    if s == [] then [] else Sections(s[..|s| - 1]) + [Section(s[|s| - 1])]
  }

  /** `render_markdown`: the heading and the sections of the sorted items,
      joined by blank lines. */
  method RenderMarkdown(data: seq<Item>, title: string) returns (out: string)
    ensures out == Join(MarkdownHeading(title) + Sections(SortByIndex(data)), "\n\n")
  {
    var sorted := SortByIndex(data);
    var parts: seq<string> := [];
    if title != "" {
      parts := parts + ["# " + title + "\n\n---\n\n"];
    }
    for i := 0 to |sorted|
      invariant parts == MarkdownHeading(title) + Sections(sorted[..i])
    {
      SectionsSnoc(sorted, i);
      SeqAssoc(MarkdownHeading(title), Sections(sorted[..i]), [Section(sorted[i])]);
      parts := parts + [Section(sorted[i])];
    }
    assert sorted[..|sorted|] == sorted;
    out := Join(parts, "\n\n");
  }

  lemma SectionsSnoc(sorted: seq<Item>, i: nat)
    requires i < |sorted|
    ensures Sections(sorted[..i + 1]) == Sections(sorted[..i]) + [Section(sorted[i])]
  {
    assert sorted[..i + 1][..i] == sorted[..i];
  }

  /** The document opens with `# <title>` and a rule exactly when the
      title is non-empty; otherwise it opens with the first talk's
      section, or is empty when there is no talk. */
  lemma MarkdownOpening(data: seq<Item>, title: string)
    ensures var out := Join(MarkdownHeading(title) + Sections(SortByIndex(data)), "\n\n");
      (title != "" ==> StartsWith(out, "# " + title + "\n\n---\n\n"))
      && (title == "" ==> (out == "" <==> data == []))
      && (title == "" && data != [] ==> StartsWith(out, "## "))
  {
    var sorted := SortByIndex(data);
    var parts := MarkdownHeading(title) + Sections(sorted);
    if title != "" {
      assert parts[0] == "# " + title + "\n\n---\n\n";
      JoinHead(parts, "\n\n");
    } else if data == [] {
      assert parts == [];
    } else {
      assert parts == Sections(sorted);
      FirstSection(sorted);
    }
  }

  lemma FirstSection(sorted: seq<Item>)
    requires sorted != []
    ensures StartsWith(Join(Sections(sorted), "\n\n"), "## ")
  {
    var parts := Sections(sorted);
    JoinHead(parts, "\n\n");
    SectionsFirst(sorted);
    var first := Section(sorted[0]);
    assert StartsWith(first, "## " + sorted[0].record.title);
    assert first[..3] == "## ";
  }

  lemma {:induction false} SectionsFirst(s: seq<Item>)
    requires s != []
    ensures Sections(s)[0] == Section(s[0])
    decreases |s|
  {
    if |s| > 1 {
      SectionsFirst(s[..|s| - 1]);
    }
  }

  // ---------------------------------------------------------------------
  // Chunking a summary into slides (`render_marp_deck`, lines 519-540)

  /** The most characters of paragraph text a slide takes before a new
      slide is started. */
  const MaxChunkLen := 1000

  /** The summed length of some paragraphs (the separators not counted). */
  function TotalLen(ps: seq<string>): nat
    decreases |ps|
  {
    if ps == [] then 0 else TotalLen(ps[..|ps| - 1]) + |ps[|ps| - 1]|
  }

  /** `summary.split('\n\n') if summary else [""]`. */
  function Paragraphs(summary: string): seq<string> {
    if summary != "" then Split(summary, "\n\n") else [""]
  }

  /** The stripped paragraphs that are not blank, in order. */
  function Kept(paras: seq<string>): (r: seq<string>)
    ensures |r| <= |paras|
    ensures forall i :: 0 <= i < |r| ==> r[i] != ""
    decreases |paras|
  {
    if paras == [] then []
    else
      var p := Strip(paras[|paras| - 1]);
      Kept(paras[..|paras| - 1]) + (if p != "" then [p] else [])
  }

  /** The paragraphs of some chunks, in order. */
  function Flatten(groups: seq<seq<string>>): seq<string>
    decreases |groups|
  {
    if groups == [] then [] else Flatten(groups[..|groups| - 1]) + groups[|groups| - 1]
  }

  /** A chunk is never empty, and holds more than `MaxChunkLen` characters
      only when it is a single paragraph. */
  predicate Fits(g: seq<string>) {
    g != [] && (TotalLen(g) <= MaxChunkLen || |g| == 1)
  }

  /** The chunk `prev` was closed only because the first paragraph of
      `next` would not fit in it. */
  predicate Overflows(prev: seq<string>, next: seq<string>) {
    next != [] && TotalLen(prev) + |next[0]| > MaxChunkLen
  }

  /** What a chunking promises: every chunk fits, and every chunk but the
      last was closed because the next paragraph would not fit. */
  ghost predicate WellChunked(groups: seq<seq<string>>) {
    (forall i :: 0 <= i < |groups| ==> Fits(groups[i]))
    && (forall i :: 0 < i < |groups| ==> Overflows(groups[i - 1], groups[i]))
  }

  /** The state of the chunking loop: the closed chunks (as paragraphs),
      `current` and `current_len`. */
  datatype Chunker = Chunker(done: seq<seq<string>>, current: seq<string>, currentLen: int)

  /** One turn of the loop over the paragraphs. */
  function Feed(c: Chunker, para: string): Chunker {
    var p := Strip(para);
    if p == "" then c
    else if c.currentLen + |p| > MaxChunkLen && c.current != [] then Chunker(c.done + [c.current], [p], |p|)
    else Chunker(c.done, c.current + [p], c.currentLen + |p|)
  }

  function FeedAll(paras: seq<string>): Chunker
    decreases |paras|
  {
    if paras == [] then Chunker([], [], 0) else Feed(FeedAll(paras[..|paras| - 1]), paras[|paras| - 1])
  }

  /** The chunks the loop holds: the closed ones, then `current` when it
      is not empty. */
  function HeldChunks(c: Chunker): seq<seq<string>> {
    if c.current != [] then c.done + [c.current] else c.done
  }

  /** The chunks of some paragraphs: what the loop holds once it has seen
      them all. */
  function Groups(paras: seq<string>): seq<seq<string>> {
    HeldChunks(FeedAll(paras))
  }

  /** `'\n\n'.join` of each chunk. */
  function JoinEach(groups: seq<seq<string>>): (r: seq<string>)
    ensures |r| == |groups|
    ensures forall i :: 0 <= i < |r| ==> r[i] == Join(groups[i], "\n\n")
  {
    seq(|groups|, i requires 0 <= i < |groups| => Join(groups[i], "\n\n"))
  }

  /** The chunking loop of `render_marp_deck`: the summary's chunk texts. */
  method ChunkSummary(summary: string) returns (chunks: seq<string>)
    ensures chunks == Chunks(summary)
  {
    var paragraphs := if summary != "" then Split(summary, "\n\n") else [""];
    chunks := [];
    var current: seq<string> := [];
    var currentLen := 0;
    for i := 0 to |paragraphs|
      invariant chunks == JoinEach(FeedAll(paragraphs[..i]).done)
      invariant current == FeedAll(paragraphs[..i]).current && currentLen == FeedAll(paragraphs[..i]).currentLen
    {
      FeedAllSnoc(paragraphs, i);
      var para := Strip(paragraphs[i]);
      if para == "" {
        continue;
      }
      if currentLen + |para| > MaxChunkLen && current != [] {
        JoinEachSnoc(FeedAll(paragraphs[..i]).done, current);
        chunks := chunks + [Join(current, "\n\n")];
        current := [para];
        currentLen := |para|;
      } else {
        current := current + [para];
        currentLen := currentLen + |para|;
      }
    }
    assert paragraphs[..|paragraphs|] == paragraphs;
    if current != [] {
      JoinEachSnoc(FeedAll(paragraphs).done, current);
      chunks := chunks + [Join(current, "\n\n")];
    }
  }

  lemma FeedAllSnoc(paras: seq<string>, i: nat)
    requires i < |paras|
    ensures FeedAll(paras[..i + 1]) == Feed(FeedAll(paras[..i]), paras[i])
  {
    assert paras[..i + 1][..i] == paras[..i];
  }

  lemma JoinEachSnoc(groups: seq<seq<string>>, g: seq<string>)
    ensures JoinEach(groups + [g]) == JoinEach(groups) + [Join(g, "\n\n")]
  {
  }

  lemma FlattenSnoc(groups: seq<seq<string>>, g: seq<string>)
    ensures Flatten(groups + [g]) == Flatten(groups) + g
  {
    assert (groups + [g])[..|groups|] == groups;
  }

  lemma TotalLenSnoc(ps: seq<string>, p: string)
    ensures TotalLen(ps + [p]) == TotalLen(ps) + |p|
  {
    assert (ps + [p])[..|ps|] == ps;
  }

  lemma WellChunkedSnoc(groups: seq<seq<string>>, g: seq<string>)
    requires WellChunked(groups)
    requires Fits(g)
    requires groups != [] ==> Overflows(groups[|groups| - 1], g)
    ensures WellChunked(groups + [g])
  {
    var gs := groups + [g];
    forall i | 0 < i < |gs| ensures Overflows(gs[i - 1], gs[i]) {
      if i < |groups| {
        assert gs[i] == groups[i] && gs[i - 1] == groups[i - 1];
      }
    }
    forall i | 0 <= i < |gs| ensures Fits(gs[i]) {
      if i < |groups| {
        assert gs[i] == groups[i];
      }
    }
  }

  lemma WellChunkedPrefix(groups: seq<seq<string>>, g: seq<string>)
    requires WellChunked(groups + [g])
    ensures WellChunked(groups)
    ensures Fits(g)
    ensures groups != [] ==> Overflows(groups[|groups| - 1], g)
  {
    var gs := groups + [g];
    assert gs[|groups|] == g;
    if groups != [] {
      assert gs[|groups| - 1] == groups[|groups| - 1];
      assert Overflows(gs[|groups| - 1], gs[|groups|]);
    }
    forall i | 0 < i < |groups| ensures Overflows(groups[i - 1], groups[i]) {
      assert gs[i] == groups[i] && gs[i - 1] == groups[i - 1];
    }
    forall i | 0 <= i < |groups| ensures Fits(groups[i]) {
      assert gs[i] == groups[i];
    }
  }

  /** What the loop keeps: `current_len` is the length of `current`, which
      is empty only before the first kept paragraph; the chunks so far hold
      exactly the paragraphs `kept`; and they are well chunked. */
  ghost predicate ChunkerState(c: Chunker, kept: seq<string>) {
    c.currentLen == TotalLen(c.current)
    && (c.current == [] ==> c.done == [])
    && Flatten(c.done) + c.current == kept
    && WellChunked(HeldChunks(c))
  }

  ghost predicate ChunkerInvariant(c: Chunker, paras: seq<string>) {
    ChunkerState(c, Kept(paras))
  }

  lemma {:induction false} FeedAllInvariant(paras: seq<string>)
    ensures ChunkerInvariant(FeedAll(paras), paras)
    decreases |paras|
  {
    if paras != [] {
      var prefix, para := paras[..|paras| - 1], paras[|paras| - 1];
      FeedAllInvariant(prefix);
      FeedStep(FeedAll(prefix), prefix, para);
    }
  }

  lemma FeedStep(c: Chunker, prefix: seq<string>, para: string)
    requires ChunkerInvariant(c, prefix)
    ensures ChunkerInvariant(Feed(c, para), prefix + [para])
  {
    KeptSnoc(prefix, para);
    var p := Strip(para);
    if p == "" {
    } else if c.currentLen + |p| > MaxChunkLen && c.current != [] {
      FeedCloses(c, Kept(prefix), p);
    } else {
      FeedExtends(c, Kept(prefix), p);
    }
  }

  lemma KeptSnoc(prefix: seq<string>, para: string)
    ensures Kept(prefix + [para]) == Kept(prefix) + (if Strip(para) != "" then [Strip(para)] else [])
  {
    assert (prefix + [para])[..|prefix|] == prefix;
  }

  /** Closing the current chunk and opening one with `p`. */
  lemma FeedCloses(c: Chunker, kept: seq<string>, p: string)
    requires ChunkerState(c, kept)
    requires p != "" && c.currentLen + |p| > MaxChunkLen && c.current != []
    ensures ChunkerState(Chunker(c.done + [c.current], [p], |p|), kept + [p])
  {
    FlattenSnoc(c.done, c.current);
    TotalLenSnoc([], p);
    assert [] + [p] == [p];
    assert Fits([p]);
    assert Overflows(c.current, [p]);
    WellChunkedSnoc(c.done + [c.current], [p]);
  }

  /** Adding `p` to the current chunk. */
  lemma FeedExtends(c: Chunker, kept: seq<string>, p: string)
    requires ChunkerState(c, kept)
    requires p != "" && (c.currentLen + |p| <= MaxChunkLen || c.current == [])
    ensures ChunkerState(Chunker(c.done, c.current + [p], c.currentLen + |p|), kept + [p])
  {
    TotalLenSnoc(c.current, p);
    if c.current == [] {
      FeedFirst(p);
      assert c.current + [p] == [p];
    } else {
      FeedFits(c.done, c.current, p);
    }
  }

  lemma FeedFirst(p: string)
    requires p != ""
    ensures WellChunked([] + [[p]])
  {
    TotalLenSnoc([], p);
    assert [] + [p] == [p];
    assert Fits([p]);
    WellChunkedSnoc([], [p]);
  }

  lemma FeedFits(done: seq<seq<string>>, current: seq<string>, p: string)
    requires current != [] && WellChunked(done + [current])
    requires TotalLen(current + [p]) <= MaxChunkLen
    ensures WellChunked(done + [current + [p]])
  {
    WellChunkedPrefix(done, current);
    assert (current + [p])[0] == current[0];
    assert Fits(current + [p]);
    WellChunkedSnoc(done, current + [p]);
  }

  /** The chunks hold exactly the stripped non-blank paragraphs, in
      order, and are well chunked; there is no chunk exactly when no
      paragraph is kept. */
  lemma ChunksPartition(paras: seq<string>)
    ensures Flatten(Groups(paras)) == Kept(paras)
    ensures WellChunked(Groups(paras))
    ensures Groups(paras) == [] <==> Kept(paras) == []
  {
    var c := FeedAll(paras);
    FeedAllInvariant(paras);
    if c.current != [] {
      FlattenSnoc(c.done, c.current);
    }
  }

  /** No chunk exactly when every paragraph is blank. */
  lemma {:induction false} KeptEmpty(paras: seq<string>)
    ensures Kept(paras) == [] <==> forall i :: 0 <= i < |paras| ==> AllSpace(paras[i])
    decreases |paras|
  {
    if paras != [] {
      var prefix := paras[..|paras| - 1];
      KeptEmpty(prefix);
      assert forall i :: 0 <= i < |prefix| ==> prefix[i] == paras[i];
    }
  }

  // ---------------------------------------------------------------------
  // The Marp deck (`render_marp_deck`)

  const MarpHeader := "---\nmarp: true\ntheme: default\nclass: invert\npaginate: true\n---\n"

  /** The rule that closes every slide but the header. */
  const SlideEnd := "\n---\n\n"

  /** The header, then the title slide when the title is non-empty. */
  function Opening(title: string): seq<string> {
    [MarpHeader] + (if title != "" then ["# " + title + "\n\n---\n\n"] else [])
  }

  /** The title card of a talk: its title, then the link line when the
      record has a `sched_link` key. */
  function TitleCard(it: Item): string {
    "## " + it.record.title + "\n"
    + (if it.record.schedLink.Some? then "\n" + LinkLine(it.url, it.record.schedLink.value, it.record) + "\n" else "")
    + SlideEnd
  }

  /** One slide per chunk. */
  function ContentSlides(chunks: seq<string>): (r: seq<string>)
    ensures |r| == |chunks|
    ensures forall i :: 0 <= i < |r| ==> r[i] == chunks[i] + "\n" + SlideEnd
  {
    seq(|chunks|, i requires 0 <= i < |chunks| => chunks[i] + "\n" + SlideEnd)
  }

  /** The chunk texts of a summary. */
  function Chunks(summary: string): seq<string> {
    JoinEach(Groups(Paragraphs(summary)))
  }

  /** The slides of one talk: its title card, then its summary's chunks. */
  function TalkSlides(it: Item): seq<string> {
    [TitleCard(it)] + ContentSlides(Chunks(it.record.summary))
  }

  function DeckSlides(items: seq<Item>): seq<string>
    decreases |items|
  {
    if items == [] then [] else DeckSlides(items[..|items| - 1]) + TalkSlides(items[|items| - 1])
  }

  /** With more than one slide, the last one is cut before its final
      `\n---` and ended with a newline. */
  function CutLast(slides: seq<string>): seq<string> {
    if |slides| > 1 && Contains(slides[|slides| - 1], "\n---") then
      var last := slides[|slides| - 1];
      LastIndexIsIndex(last, "\n---");
      slides[..|slides| - 1] + [last[..LastIndexOf(last, "\n---").value] + "\n"]
    else slides
  }

  /** `render_marp_deck`. */
  method RenderMarpDeck(data: seq<Item>, title: string) returns (out: string)
    ensures out == Concat(CutLast(Opening(title) + DeckSlides(SortByIndex(data))))
  {
    var slides := BuildSlides(SortByIndex(data), title);
    if |slides| > 1 {
      var last := slides[|slides| - 1];
      if Contains(last, "\n---") {
        LastIndexIsIndex(last, "\n---");
        var prefix := last[..LastIndexOf(last, "\n---").value];
        slides := slides[..|slides| - 1] + [prefix + "\n"];
      }
    }
    out := Concat(slides);
  }

  /** The slides before the last one is cut. */
  method BuildSlides(sorted: seq<Item>, title: string) returns (slides: seq<string>)
    ensures slides == Opening(title) + DeckSlides(sorted)
  {
    slides := [MarpHeader];
    if title != "" {
      slides := slides + ["# " + title + "\n\n---\n\n"];
    }
    for i := 0 to |sorted|
      invariant slides == Opening(title) + DeckSlides(sorted[..i])
    {
      slides := AddTalk(slides, sorted, i, title);
    }
    assert sorted[..|sorted|] == sorted;
  }

  /** One turn of the loop over the talks. */
  method AddTalk(slides: seq<string>, sorted: seq<Item>, i: nat, title: string) returns (r: seq<string>)
    requires i < |sorted| && slides == Opening(title) + DeckSlides(sorted[..i])
    ensures r == Opening(title) + DeckSlides(sorted[..i + 1])
  {
    DeckSlidesSnoc(sorted, i);
    var card := TitleCard(sorted[i]);
    r := AddTalkSlides(slides, card, sorted[i].record.summary);
    assert TalkSlides(sorted[i]) == [card] + ContentSlides(Chunks(sorted[i].record.summary));
    SeqAssoc(slides, [card], ContentSlides(Chunks(sorted[i].record.summary)));
    SeqAssoc(Opening(title), DeckSlides(sorted[..i]), TalkSlides(sorted[i]));
  }

  lemma SeqAssoc<T>(a: seq<T>, b: seq<T>, c: seq<T>)
    ensures a + b + c == a + (b + c)
  {
  }

  lemma DeckSlidesSnoc(items: seq<Item>, i: nat)
    requires i < |items|
    ensures DeckSlides(items[..i + 1]) == DeckSlides(items[..i]) + TalkSlides(items[i])
  {
    assert items[..i + 1][..i] == items[..i];
  }

  /** The body of the loop over the talks: the title card, then one slide
      per chunk (none when the summary has no chunk). */
  method AddTalkSlides(slides: seq<string>, card: string, summary: string) returns (r: seq<string>)
    ensures r == slides + [card] + ContentSlides(Chunks(summary))
  {
    var chunks := ChunkSummary(summary);
    r := AppendContentSlides(slides + [card], chunks);
  }

  /** The loop over the chunks, one slide per chunk. */
  method AppendContentSlides(head: seq<string>, chunks: seq<string>) returns (r: seq<string>)
    ensures r == head + ContentSlides(chunks)
  {
    r := head;
    for j := 0 to |chunks|
      invariant r == head + ContentSlides(chunks[..j])
    {
      ContentSlidesSnoc(chunks, j);
      SeqAssoc(head, ContentSlides(chunks[..j]), [chunks[j] + "\n" + SlideEnd]);
      r := r + [chunks[j] + "\n" + SlideEnd];
    }
    assert chunks[..|chunks|] == chunks;
  }

  lemma ContentSlidesSnoc(chunks: seq<string>, j: nat)
    requires j < |chunks|
    ensures ContentSlides(chunks[..j + 1]) == ContentSlides(chunks[..j]) + [chunks[j] + "\n" + SlideEnd]
  {
  }

  /** Does `s` end with the slide rule? */
  predicate Closed(s: string) {
    |s| >= |SlideEnd| && s[|s| - |SlideEnd|..] == SlideEnd
  }

  /** The last `\n---` of a closed slide is the one of its closing rule. */
  lemma CutClosed(s: string)
    requires Closed(s)
    ensures LastIndexOf(s, "\n---") == Some(|s| - |SlideEnd|)
  {
    var k := |s| - |SlideEnd|;
    assert s[k..k + 4] == "\n---";
    assert OccursAt(s, "\n---", k);
    var r := LastIndexOf(s, "\n---");
    assert r.Some?;
    assert !OccursAt(s, "\n---", k + 1) by { assert s[k + 1] == '-'; }
    assert !OccursAt(s, "\n---", k + 2) by { assert s[k + 2] == '-'; }
  }

  lemma ClosedAppend(a: string, b: string)
    requires Closed(b)
    ensures Closed(a + b)
  {
    assert (a + b)[|a + b| - |SlideEnd|..] == b[|b| - |SlideEnd|..];
  }

  lemma {:induction false} DeckSlidesClosed(items: seq<Item>)
    ensures forall i :: 0 <= i < |DeckSlides(items)| ==> Closed(DeckSlides(items)[i])
    decreases |items|
  {
    if items != [] {
      var prefix, it := items[..|items| - 1], items[|items| - 1];
      DeckSlidesClosed(prefix);
      TalkSlidesClosed(it);
      ClosedConcat(DeckSlides(prefix), TalkSlides(it));
    }
  }

  lemma ClosedConcat(a: seq<string>, b: seq<string>)
    requires forall i :: 0 <= i < |a| ==> Closed(a[i])
    requires forall i :: 0 <= i < |b| ==> Closed(b[i])
    ensures forall i :: 0 <= i < |a + b| ==> Closed((a + b)[i])
  {
    forall i | 0 <= i < |a + b| ensures Closed((a + b)[i]) {
      if i < |a| {
        assert (a + b)[i] == a[i];
      } else {
        assert (a + b)[i] == b[i - |a|];
      }
    }
  }

  lemma TalkSlidesClosed(it: Item)
    ensures forall i :: 0 <= i < |TalkSlides(it)| ==> Closed(TalkSlides(it)[i])
  {
    var card := TitleCard(it);
    ClosedAppend(card[..|card| - |SlideEnd|], SlideEnd);
    assert card == card[..|card| - |SlideEnd|] + SlideEnd;
    var chunks := Chunks(it.record.summary);
    forall i | 0 <= i < |chunks| ensures Closed(ContentSlides(chunks)[i]) {
      ClosedAppend(chunks[i] + "\n", SlideEnd);
    }
    ClosedConcat([card], ContentSlides(chunks));
  }

  /** Each talk has exactly one title card, followed by one slide per
      chunk of its summary; only a summary whose paragraphs are all blank
      gives a talk no content slide. */
  lemma TalkSlidesShape(it: Item)
    ensures TalkSlides(it)[0] == TitleCard(it)
    ensures |TalkSlides(it)| == 1 + |Groups(Paragraphs(it.record.summary))|
    ensures |TalkSlides(it)| == 1 <==>
      forall i :: 0 <= i < |Paragraphs(it.record.summary)| ==> AllSpace(Paragraphs(it.record.summary)[i])
  {
    ChunksPartition(Paragraphs(it.record.summary));
    KeptEmpty(Paragraphs(it.record.summary));
  }

  /** The deck ends cleanly: with more than one slide the last one loses
      exactly its closing rule (its trailing `---` and blank line) and
      keeps a newline; a deck of the header alone is left as it is. */
  lemma DeckEnding(data: seq<Item>, title: string)
    ensures var slides := Opening(title) + DeckSlides(SortByIndex(data));
      (|slides| > 1 ==>
        Closed(slides[|slides| - 1])
        && CutLast(slides) == slides[..|slides| - 1] + [Unclosed(slides[|slides| - 1]) + "\n"])
      && (|slides| == 1 ==> CutLast(slides) == slides)
  {
    var deck := DeckSlides(SortByIndex(data));
    var slides := Opening(title) + deck;
    if |slides| > 1 {
      LastClosed(Opening(title), deck, title, SortByIndex(data));
      CutLastClosed(slides);
    }
  }

  /** A closed slide without its closing rule. */
  function Unclosed(s: string): string
    requires Closed(s)
  {
    s[..|s| - |SlideEnd|]
  }

  lemma LastClosed(opening: seq<string>, deck: seq<string>, title: string, items: seq<Item>)
    requires opening == Opening(title) && deck == DeckSlides(items) && |opening + deck| > 1
    ensures Closed((opening + deck)[|opening + deck| - 1])
  {
    if deck != [] {
      DeckSlidesClosed(items);
      assert (opening + deck)[|opening + deck| - 1] == deck[|deck| - 1];
    } else {
      assert opening + deck == opening;
      TitleSlideClosed(title);
    }
  }

  lemma TitleSlideClosed(title: string)
    requires title != ""
    ensures Closed(Opening(title)[1])
  {
    ClosedAppend("# " + title + "\n", SlideEnd);
    assert "# " + title + "\n\n---\n\n" == "# " + title + "\n" + SlideEnd;
  }

  lemma CutLastClosed(slides: seq<string>)
    requires |slides| > 1 && Closed(slides[|slides| - 1])
    ensures CutLast(slides) == slides[..|slides| - 1] + [Unclosed(slides[|slides| - 1]) + "\n"]
  {
    var last := slides[|slides| - 1];
    CutClosed(last);
    ContainsAt(last, "\n---", |last| - |SlideEnd|);
  }

  // ---------------------------------------------------------------------
  // HTML escaping (`html.escape`, quoting on)

  /** The characters `html.escape` replaces. */
  predicate IsMarkup(c: char) {
    c == '&' || c == '<' || c == '>' || c == '"' || c == '\''
  }

  function EscapeChar(c: char): (r: string)
    ensures |r| >= 1
  {
    if c == '&' then "&amp;"
    else if c == '<' then "&lt;"
    else if c == '>' then "&gt;"
    else if c == '"' then "&quot;"
    else if c == '\'' then "&#x27;"
    else [c]
  }

  /** `html.escape(s)`. */
  function Escape(s: string): (r: string)
    ensures r == "" <==> s == ""
    decreases |s|
  {
    if s == [] then [] else EscapeChar(s[0]) + Escape(s[1..])
  }

  /** No markup character but `&` survives escaping, so escaped text can
      be placed inside an element or a quoted attribute without closing
      either. */
  lemma {:induction false} EscapeSafe(s: string)
    ensures forall i :: 0 <= i < |Escape(s)| ==> Escape(s)[i] == '&' || !IsMarkup(Escape(s)[i])
    decreases |s|
  {
    if s != [] {
      EscapeSafe(s[1..]);
      var head, tail := EscapeChar(s[0]), Escape(s[1..]);
      assert forall i :: 0 <= i < |head| ==> head[i] == '&' || !IsMarkup(head[i]);
      assert forall i :: |head| <= i < |head + tail| ==> (head + tail)[i] == tail[i - |head|];
    }
  }

  /** The text a browser reads back from escaped markup: the five
      references `html.escape` writes are decoded, anything else is kept. */
  function Unescape(t: string): string
    decreases |t|
  {
    if t == [] then []
    else if t[0] != '&' then [t[0]] + Unescape(t[1..])
    else
      match Reference(t)
      case Some(r) => [r.0] + Unescape(t[r.1..])
      case None => [t[0]] + Unescape(t[1..])
  }

  /** The character a reference at the start of `t` stands for, and the
      reference's length. */
  function Reference(t: string): (r: Option<(char, nat)>)
    ensures r.Some? ==> 0 < r.value.1 <= |t|
  {
    if StartsWith(t, "&amp;") then Some(('&', 5))
    else if StartsWith(t, "&lt;") then Some(('<', 4))
    else if StartsWith(t, "&gt;") then Some(('>', 4))
    else if StartsWith(t, "&quot;") then Some(('"', 6))
    else if StartsWith(t, "&#x27;") then Some(('\'', 6))
    else None
  }

  lemma ReferenceOf(c: char, rest: string)
    requires IsMarkup(c)
    ensures Reference(EscapeChar(c) + rest) == Some((c, |EscapeChar(c)|))
  {
    var t := EscapeChar(c) + rest;
    var e := EscapeChar(c);
    assert t[..|e|] == e;
    if c == '<' {
      assert t[1] == 'l';
    } else if c == '>' {
      assert t[1] == 'g';
    } else if c == '"' {
      assert t[1] == 'q';
    } else if c == '\'' {
      assert t[1] == '#';
    }
  }

  lemma UnescapeChar(c: char, rest: string)
    ensures Unescape(EscapeChar(c) + rest) == [c] + Unescape(rest)
  {
    var t := EscapeChar(c) + rest;
    assert t[|EscapeChar(c)|..] == rest;
    if IsMarkup(c) {
      ReferenceOf(c, rest);
    } else {
      assert t[0] == c;
    }
  }

  /** Escaping loses nothing: reading the escaped text back gives the
      original text. */
  lemma {:induction false} EscapeRoundTrip(s: string)
    ensures Unescape(Escape(s)) == s
    decreases |s|
  {
    if s != [] {
      EscapeRoundTrip(s[1..]);
      UnescapeChar(s[0], Escape(s[1..]));
    }
  }

  // ---------------------------------------------------------------------
  // The HTML page (`render_html_page`, the part that depends on the data)

  const DefaultTitle := "Conference Summary"

  /** The escaped page title, `Conference Summary` when the title is empty. */
  function PageTitle(title: string): (r: string)
    ensures Unescape(r) == if title != "" then title else DefaultTitle
  {
    var t := if title != "" then title else DefaultTitle;
    EscapeRoundTrip(t);
    Escape(t)
  }

  /** `(info.get("event_type") or "").strip()`. */
  function EventKind(r: TalkRecord): string {
    Strip(OrEmpty(r.eventType))
  }

  /** Whether the type filter is shown: `any` talk has a non-blank event
      type. */
  predicate HasEventTypes(items: seq<Item>)
    decreases |items|
  {
    items != [] && (EventKind(items[0].record) != "" || HasEventTypes(items[1..]))
  }

  lemma {:induction false} HasEventTypesSome(items: seq<Item>)
    ensures HasEventTypes(items) <==> exists i :: 0 <= i < |items| && EventKind(items[i].record) != ""
    decreases |items|
  {
    if items != [] {
      HasEventTypesSome(items[1..]);
      if exists i :: 0 <= i < |items| && EventKind(items[i].record) != "" {
        var i :| 0 <= i < |items| && EventKind(items[i].record) != "";
        if i > 0 {
          assert items[1..][i - 1] == items[i];
        }
      }
      if exists i :: 0 <= i < |items[1..]| && EventKind(items[1..][i].record) != "" {
        var i :| 0 <= i < |items[1..]| && EventKind(items[1..][i].record) != "";
        assert items[i + 1] == items[1..][i];
      }
    }
  }

  /** What identifies a talk in the browser's hidden and saved lists:
      `url or sched_link or title or ""`. */
  function ItemKey(it: Item): (key: string)
    ensures it.url != "" ==> key == it.url
    ensures it.url == "" && Truthy(it.record.schedLink) ==> key == it.record.schedLink.value
    ensures it.url == "" && !Truthy(it.record.schedLink) ==> key == it.record.title
  {
    if it.url != "" then it.url
    else if Truthy(it.record.schedLink) then it.record.schedLink.value
    else it.record.title
  }

  /** The `data-id` attribute of a talk. */
  function ItemId(it: Item): string {
    Escape(ItemKey(it))
  }

  /** A link opening in a new tab. */
  function Anchor(href: string, caption: string): (a: string)
    ensures a != ""
  {
    "<a href=\"" + Escape(href) + "\" target=\"_blank\" rel=\"noopener noreferrer\">" + caption + "</a>"
  }

  /** The Event, YouTube and Deck links, in this order, each only when
      its value is truthy. */
  function Links(it: Item): (links: seq<string>)
    ensures |links| == (if Truthy(it.record.schedLink) then 1 else 0) + (if it.url != "" then 1 else 0)
                       + (if Truthy(it.record.deckUrl) then 1 else 0)
    ensures Truthy(it.record.schedLink) ==> links[0] == Anchor(it.record.schedLink.value, "Event")
    ensures Truthy(it.record.deckUrl) ==> links[|links| - 1] == Anchor(it.record.deckUrl.value, "Deck")
  {
    (if Truthy(it.record.schedLink) then [Anchor(it.record.schedLink.value, "Event")] else [])
    + (if it.url != "" then [Anchor(it.url, "YouTube")] else [])
    + (if Truthy(it.record.deckUrl) then [Anchor(it.record.deckUrl.value, "Deck")] else [])
  }

  /** The separator of the metadata line. */
  const Dot := " \U{B7} "

  /** The metadata line: the links joined by the separator, then the
      escaped event type, behind a separator only when there is a link. */
  function MetaText(it: Item): string {
    var links := Links(it);
    var linksHtml := if links != [] then Join(links, Dot) else "";
    var kind := EventKind(it.record);
    if kind != "" then linksHtml + (if linksHtml != "" then Dot else "") + Escape(kind) else linksHtml
  }

  /** The metadata line is a single join: the separator stands exactly
      between consecutive present parts, the event type last. */
  lemma MetaTextJoin(it: Item)
    ensures MetaText(it) == Join(Links(it) + (if EventKind(it.record) != "" then [Escape(EventKind(it.record))] else []), Dot)
  {
    var links := Links(it);
    assert links != [] ==> links[0] != "";
    var kind := EventKind(it.record);
    JoinOptional(links, if kind != "" then [Escape(kind)] else [], Dot);
  }

  /** Joining some parts and then appending at most one more behind a
      separator (only when the join is not empty) is one join, provided
      the first part is not empty. */
  lemma JoinOptional(parts: seq<string>, more: seq<string>, sep: string)
    requires |more| <= 1 && (parts != [] ==> parts[0] != "")
    ensures var joined := if parts != [] then Join(parts, sep) else "";
      (if more != [] then joined + (if joined != "" then sep else "") + more[0] else joined) == Join(parts + more, sep)
  {
    if parts != [] {
      JoinHead(parts, sep);
    }
    if more != [] {
      JoinSnoc(parts, more[0], sep);
      assert more == [more[0]];
    } else {
      assert parts + more == parts;
    }
  }

  /** The `<article>` of one talk. */
  function Article(it: Item): string {
    Concat(ArticleParts(it))
  }

  function ArticleParts(it: Item): seq<string> {
    var id := ItemId(it);
    [ "      <article class=\"talk card border rounded-3 shadow-sm\" data-type=\"", Escape(EventKind(it.record)),
      "\" data-id=\"", id, "\">\n",
      "        <div class=\"card-body\">\n",
      "          <div class=\"d-flex flex-column gap-1 mb-1\">\n",
      "            <h2 class=\"h6 mb-0\">", Escape(it.record.title), "</h2>\n",
      "            <div class=\"d-flex flex-wrap align-items-center gap-2 small text-body-secondary\">\n",
      "              <span>", MetaText(it), "</span>\n",
      "            </div>\n",
      "          </div>\n",
      "          <div class=\"talk-actions mb-2 text-body-secondary\">\n",
      "            <span class=\"talk-action-link btn-hide\" data-id=\"", id, "\">Hide</span>\n",
      "            <span class=\"talk-action-separator\">\U{B7}</span>\n",
      "            <span class=\"talk-action-link btn-save\" data-id=\"", id, "\">Save</span>\n",
      "          </div>\n",
      "          <div class=\"mt-1 small\" style=\"white-space: pre-line;\">", Escape(it.record.summary), "</div>\n",
      "        </div>\n",
      "      </article>\n" ]
  }

  /** `f` applied to each item, in order. */
  function MapItems(f: Item -> string, items: seq<Item>): (r: seq<string>)
    ensures |r| == |items|
    decreases |items|
  {
    if items == [] then [] else MapItems(f, items[..|items| - 1]) + [f(items[|items| - 1])]
  }

  lemma MapItemsSnoc(f: Item -> string, items: seq<Item>, i: nat)
    requires i < |items|
    ensures MapItems(f, items[..i + 1]) == MapItems(f, items[..i]) + [f(items[i])]
  {
    assert items[..i + 1][..i] == items[..i];
  }

  /** The head of the HTML page: the escaped title, and whether the type
      filter is shown, which it is when some talk has an event type.  The
      markup and script around the data are constant. */
  method PageHead(data: seq<Item>, title: string) returns (pageTitle: string, typeFilter: bool)
    ensures pageTitle == PageTitle(title)
    ensures typeFilter <==> HasEventTypes(SortByIndex(data))
  {
    var sorted := SortByIndex(data);
    pageTitle := PageTitle(title);
    typeFilter := HasEventTypes(sorted);
  }

  /** The talk list of the HTML page: one article per talk, in index order. */
  method RenderTalkList(data: seq<Item>) returns (talkList: string)
    ensures talkList == Concat(MapItems(Article, SortByIndex(data)))
  {
    var sorted := SortByIndex(data);
    talkList := RenderEach(Article, sorted);
  }

  /** The loop over the sorted talks, appending one rendered part per talk. */
  method RenderEach(render: Item -> string, sorted: seq<Item>) returns (out: string)
    ensures out == Concat(MapItems(render, sorted))
  {
    var parts: seq<string> := [];
    for i := 0 to |sorted|
      invariant parts == MapItems(render, sorted[..i])
    {
      MapItemsSnoc(render, sorted, i);
      parts := parts + [render(sorted[i])];
    }
    assert sorted[..|sorted|] == sorted;
    out := Concat(parts);
  }

  /** The type filter is shown exactly when some talk, in whatever order,
      has a non-blank event type. */
  lemma SortedEventTypes(data: seq<Item>)
    ensures HasEventTypes(SortByIndex(data)) <==> exists i :: 0 <= i < |data| && EventKind(data[i].record) != ""
  {
    var sorted := SortByIndex(data);
    HasEventTypesSome(sorted);
    SortByIndexCorrect(data);
    if exists i :: 0 <= i < |data| && EventKind(data[i].record) != "" {
      var i :| 0 <= i < |data| && EventKind(data[i].record) != "";
      assert data[i] in multiset(sorted);
    }
    if exists i :: 0 <= i < |sorted| && EventKind(sorted[i].record) != "" {
      var i :| 0 <= i < |sorted| && EventKind(sorted[i].record) != "";
      assert sorted[i] in multiset(data);
      var j :| 0 <= j < |data| && data[j] == sorted[i];
    }
  }

  /** The `data-id` of a talk reads back as its URL, else its schedule
      link, else its title; it is empty only when all three are. */
  lemma ItemIdFallback(it: Item)
    ensures Unescape(ItemId(it)) == ItemKey(it)
    ensures ItemId(it) == "" <==> it.url == "" && !Truthy(it.record.schedLink) && it.record.title == ""
  {
    EscapeRoundTrip(ItemKey(it));
  }
}
