/** The on-disk caches under `~/.cache`, as one store mapping a path
    (relative to `~/.cache`) to what reading that file yields.  A file that
    cannot be read or parsed reads as `Unreadable`, which every loader
    treats as a miss; a path in `readOnly` cannot be written, and a write
    there is swallowed. */
module Cache {
  import opened Common

  /** What loading a cache file yields: a text file, the JSON list of a
      playlist's videos, the JSON list of an event's talks, or a failure. */
  datatype Payload = TextFile(text: string) | VideoList(videos: seq<VideoInfo>) | TalkList(talks: seq<SchedTalk>) | Unreadable

  type Files = map<string, Payload>

  /** The files after writing `p` at `path`; a failing write changes nothing. */
  function Stored(files: Files, readOnly: set<string>, path: string, p: Payload): (r: Files)
  {
    if path in readOnly then files else files[path := p]
  }

  /** Loading a text file: its text, or `None` when it is missing or unreadable. */
  function ReadText(files: Files, path: string): (r: Option<string>)
    ensures r.Some? <==> path in files && files[path].TextFile?
    ensures r.Some? ==> r.value == files[path].text
  {
    if path in files && files[path].TextFile? then Some(files[path].text) else None
  }

  /** Loading a playlist JSON file. */
  function ReadVideos(files: Files, path: string): (r: Option<seq<VideoInfo>>)
    ensures r.Some? <==> path in files && files[path].VideoList?
    ensures r.Some? ==> r.value == files[path].videos
  {
    if path in files && files[path].VideoList? then Some(files[path].videos) else None
  }

  /** Loading a schedule JSON file. */
  function ReadTalks(files: Files, path: string): (r: Option<seq<SchedTalk>>)
    ensures r.Some? <==> path in files && files[path].TalkList?
    ensures r.Some? ==> r.value == files[path].talks
  {
    if path in files && files[path].TalkList? then Some(files[path].talks) else None
  }

  /** A write followed by a read of the same path returns what was written,
      unless the write failed, in which case the old contents remain. */
  lemma ReadAfterWrite(files: Files, readOnly: set<string>, path: string, p: Payload)
    ensures path !in readOnly ==> var f := Stored(files, readOnly, path, p);
      ReadText(f, path) == (if p.TextFile? then Some(p.text) else None)
      && ReadVideos(f, path) == (if p.VideoList? then Some(p.videos) else None)
      && ReadTalks(f, path) == (if p.TalkList? then Some(p.talks) else None)
    ensures path in readOnly ==> Stored(files, readOnly, path, p) == files
  {
  }

  /** `f` and `g` agree on `path`: both lack it, or both hold the same payload. */
  predicate SameAt(f: Files, g: Files, path: string) {
    (path in f <==> path in g) && (path in f ==> f[path] == g[path])
  }

  /** `f` and `g` agree at every path except perhaps `path`. */
  ghost predicate AgreeOff(f: Files, g: Files, path: string) {
    forall q :: q != path ==> SameAt(f, g, q)
  }

  /** Stores that agree off `path` and at `path` are the same store. */
  lemma AgreeEverywhere(f: Files, g: Files, path: string)
    requires AgreeOff(f, g, path) && SameAt(f, g, path)
    ensures f == g
  {
    forall q ensures SameAt(f, g, q) {
      if q != path { assert SameAt(f, g, q); }
    }
    assert f.Keys == g.Keys by {
      forall q ensures q in f.Keys <==> q in g.Keys { assert SameAt(f, g, q); }
    }
    forall q | q in f.Keys ensures f[q] == g[q] { assert SameAt(f, g, q); }
  }

  /** A write to some other path keeps two stores agreeing off `path`. */
  lemma StoredAgreeOff(f: Files, g: Files, readOnly: set<string>, path: string, at: string, p: Payload)
    requires AgreeOff(f, g, path) && at != path
    ensures AgreeOff(Stored(f, readOnly, at, p), Stored(g, readOnly, at, p), path)
  {
    forall q | q != path ensures SameAt(Stored(f, readOnly, at, p), Stored(g, readOnly, at, p), q) {
      assert SameAt(f, g, q);
    }
  }

  /** A write touches no other path. */
  lemma WriteElsewhere(files: Files, readOnly: set<string>, path: string, p: Payload, other: string)
    requires other != path
    ensures var f := Stored(files, readOnly, path, p);
      ReadText(f, other) == ReadText(files, other)
      && ReadVideos(f, other) == ReadVideos(files, other)
      && ReadTalks(f, other) == ReadTalks(files, other)
  {
  }

  /** The store of cache files, which the pipelines update in place. */
  class CacheStore {
    var files: Files
    const readOnly: set<string>

    constructor(files: Files, readOnly: set<string>)
      ensures this.files == files && this.readOnly == readOnly
    {
      this.files := files;
      this.readOnly := readOnly;
    }

    /** Write a file; an error while writing is caught and ignored. */
    method Write(path: string, p: Payload)
      modifies this
      ensures files == Stored(old(files), readOnly, path, p)
    {
      if path !in readOnly {
        files := files[path := p];
      }
    }
  }
}
