/** Datatypes shared by the whole model: optional values, results with an
    error, and the talk record that both pipelines produce and every
    renderer consumes. */
module Common {

  datatype Option<+T> = None | Some(value: T)

  datatype Result<+T, +E> = Ok(value: T) | Err(error: E)

  /** Is `o` present and non-empty (Python truthiness of an optional string)? */
  predicate Truthy(o: Option<string>) {
    o.Some? && o.value != ""
  }

  /** `o or ""` in Python: the string, or "" when it is absent. */
  function OrEmpty(o: Option<string>): (r: string)
    ensures Truthy(o) <==> r != ""
  {
    if o.Some? then o.value else ""
  }

  /** The process environment (`os.environ`). */
  type Env = map<string, string>

  /** `os.environ.get(name)`. */
  function EnvGet(env: Env, name: string): (r: Option<string>)
    ensures r.Some? <==> name in env
  {
    if name in env then Some(env[name]) else None
  }

  /** One video of a playlist, as the pipeline lists (and caches) it. */
  datatype VideoInfo = VideoInfo(url: string, title: string, duration: int)

  /** One talk scraped from an event schedule, as the scraper lists (and
      caches) it.  `eventType` and `deckUrl` may be null. */
  datatype SchedTalk = SchedTalk(
    title: string,
    schedLink: string,
    youtubeUrl: string,
    description: string,
    eventType: Option<string>,
    deckUrl: Option<string>)

  /** One entry of the output mapping (URL -> record).  The optional fields
      model the keys that may be missing from the record's dictionary:
      `None` means "key absent", `Some("")` means "key present with an empty
      value". */
  datatype TalkRecord = TalkRecord(
    index: int,
    title: string,
    summary: string,
    schedLink: Option<string>,
    eventType: Option<string>,
    deckUrl: Option<string>)
}
