/** The summarization strategies: the factory that maps a strategy name to a
    constructor, the constructors' API-key and field logic, the prompt every
    strategy sends, and how a client's reply or error becomes the returned
    summary.  The language-model clients themselves are oracles. */
module Summarizers {
  import opened Common
  import opened Text

  /** A configured summarizer.  Its fields are only written by its
      constructor, so it is a value.  For Gemini, `modelText` is `str()` of
      the library's model object, whose text the model does not know. */
  datatype Summarizer =
    | Anthropic(apiKey: string, model: string, summaryLength: int)
    | OpenAI(apiKey: string, model: string, summaryLength: int)
    | Gemini(apiKey: string, modelName: string, modelText: string, summaryLength: int)
    | Ollama(baseUrl: string, model: string, summaryLength: int, sequential: bool, hasLock: bool)

  /** The Python class name (`summarizer.__class__.__name__`). */
  function ClassName(s: Summarizer): string
  {
    match s
    case Anthropic(_, _, _) => "AnthropicSummarizer"
    case OpenAI(_, _, _) => "OpenAISummarizer"
    case Gemini(_, _, _, _) => "GeminiSummarizer"
    case Ollama(_, _, _, _, _) => "OllamaSummarizer"
  }

  // ---------------------------------------------------------------------
  // Construction

  /** The keyword arguments passed to a constructor; `None` means "not
      passed", so the constructor's default applies. */
  datatype Args = Args(
    apiKey: Option<string>,
    model: Option<string>,
    summaryLength: Option<int>,
    baseUrl: Option<string>,
    sequential: Option<bool>)

  /** Why a summarizer could not be built: an unknown strategy name or a
      missing API key (`ValueError`), or a keyword the constructor does not
      take (`TypeError`). */
  datatype BuildError = UnknownStrategy(name: string) | MissingApiKey(variable: string) | UnexpectedArgument(name: string)

  const DefaultSummaryLength := 800
  const DefaultOllamaUrl := "http://localhost:11434"

  function WithDefault<T>(o: Option<T>, d: T): T
  {
    if o.Some? then o.value else d
  }

  /** `api_key or os.environ.get(variable)`, kept only when it is truthy. */
  function ResolveKey(given: Option<string>, env: Env, variable: string): (r: Option<string>)
    ensures r.Some? ==> r.value != ""
    ensures r.None? <==> !Truthy(given) && !Truthy(EnvGet(env, variable))
    ensures Truthy(given) ==> r == given
  {
    if Truthy(given) then given
    else if Truthy(EnvGet(env, variable)) then EnvGet(env, variable)
    else None
  }

  /** The keyword the API-key constructors do not accept, if one was passed. */
  function ForeignKeyword(args: Args): Option<string>
  {
    if args.baseUrl.Some? then Some("base_url")
    else if args.sequential.Some? then Some("sequential")
    else None
  }

  /** `AnthropicSummarizer(**kwargs)`. */
  function NewAnthropic(args: Args, env: Env): (r: Result<Summarizer, BuildError>)
    ensures r == Err(MissingApiKey("ANTHROPIC_API_KEY")) <==>
      ForeignKeyword(args).None? && !Truthy(args.apiKey) && !Truthy(EnvGet(env, "ANTHROPIC_API_KEY"))
    ensures r.Ok? ==> r.value.Anthropic? && r.value.apiKey != ""
    ensures r.Ok? && Truthy(args.apiKey) ==> r.value.apiKey == args.apiKey.value
    ensures r.Ok? ==> r.value.model == WithDefault(args.model, "claude-3-5-haiku-20241022")
    ensures r.Ok? ==> r.value.summaryLength == WithDefault(args.summaryLength, DefaultSummaryLength)
  {
    if ForeignKeyword(args).Some? then Err(UnexpectedArgument(ForeignKeyword(args).value))
    else match ResolveKey(args.apiKey, env, "ANTHROPIC_API_KEY")
      case None => Err(MissingApiKey("ANTHROPIC_API_KEY"))
      case Some(key) =>
        Ok(Anthropic(key, WithDefault(args.model, "claude-3-5-haiku-20241022"),
                     WithDefault(args.summaryLength, DefaultSummaryLength)))
  }

  /** `OpenAISummarizer(**kwargs)`. */
  function NewOpenAI(args: Args, env: Env): (r: Result<Summarizer, BuildError>)
    ensures r == Err(MissingApiKey("OPENAI_API_KEY")) <==>
      ForeignKeyword(args).None? && !Truthy(args.apiKey) && !Truthy(EnvGet(env, "OPENAI_API_KEY"))
    ensures r.Ok? ==> r.value.OpenAI? && r.value.apiKey != ""
    ensures r.Ok? && Truthy(args.apiKey) ==> r.value.apiKey == args.apiKey.value
    ensures r.Ok? ==> r.value.model == WithDefault(args.model, "gpt-4o-mini")
    ensures r.Ok? ==> r.value.summaryLength == WithDefault(args.summaryLength, DefaultSummaryLength)
  {
    if ForeignKeyword(args).Some? then Err(UnexpectedArgument(ForeignKeyword(args).value))
    else match ResolveKey(args.apiKey, env, "OPENAI_API_KEY")
      case None => Err(MissingApiKey("OPENAI_API_KEY"))
      case Some(key) =>
        Ok(OpenAI(key, WithDefault(args.model, "gpt-4o-mini"), WithDefault(args.summaryLength, DefaultSummaryLength)))
  }

  /** `GeminiSummarizer(**kwargs)`; `describe` stands for `str()` of the
      library's model object built from the model name. */
  function NewGemini(args: Args, env: Env, describe: string -> string): (r: Result<Summarizer, BuildError>)
    ensures r == Err(MissingApiKey("GOOGLE_API_KEY")) <==>
      ForeignKeyword(args).None? && !Truthy(args.apiKey) && !Truthy(EnvGet(env, "GOOGLE_API_KEY"))
    ensures r.Ok? ==> r.value.Gemini? && r.value.apiKey != ""
    ensures r.Ok? && Truthy(args.apiKey) ==> r.value.apiKey == args.apiKey.value
    ensures r.Ok? ==> r.value.modelName == WithDefault(args.model, "gemini-2.0-flash-exp")
    ensures r.Ok? ==> r.value.modelText == describe(r.value.modelName)
    ensures r.Ok? ==> r.value.summaryLength == WithDefault(args.summaryLength, DefaultSummaryLength)
  {
    if ForeignKeyword(args).Some? then Err(UnexpectedArgument(ForeignKeyword(args).value))
    else match ResolveKey(args.apiKey, env, "GOOGLE_API_KEY")
      case None => Err(MissingApiKey("GOOGLE_API_KEY"))
      case Some(key) =>
        var name := WithDefault(args.model, "gemini-2.0-flash-exp");
        Ok(Gemini(key, name, describe(name), WithDefault(args.summaryLength, DefaultSummaryLength)))
  }

  /** `s.rstrip("/")`. */
  function StripTrailingSlashes(s: string): (r: string)
    ensures r == [] || r[|r| - 1] != '/'
    ensures |r| <= |s| && s[..|r|] == r
    ensures forall i :: |r| <= i < |s| ==> s[i] == '/'
    decreases |s|
  {
    if s != [] && s[|s| - 1] == '/' then
      var r := StripTrailingSlashes(s[..|s| - 1]);
      assert s[..|s| - 1][..|r|] == s[..|r|];
      r
    else s
  }

  /** `os.environ.get("OLLAMA_SEQUENTIAL", "").lower() in ("1", "true", "yes")`. */
  predicate SequentialFromEnv(env: Env)
  {
    Lower(WithDefault(EnvGet(env, "OLLAMA_SEQUENTIAL"), "")) in {"1", "true", "yes"}
  }

  /** `OllamaSummarizer(**kwargs)`: needs no key, and is sequential (and has
      a lock) when asked to be by the flag or by the environment. */
  function NewOllama(args: Args, env: Env): (r: Result<Summarizer, BuildError>)
    ensures r.Ok? <==> args.apiKey.None?
    ensures r.Ok? ==> r.value.Ollama?
    ensures r.Ok? ==> (r.value.sequential <==> WithDefault(args.sequential, true) || SequentialFromEnv(env))
    ensures r.Ok? ==> r.value.hasLock == r.value.sequential
    ensures r.Ok? ==> r.value.baseUrl == StripTrailingSlashes(WithDefault(args.baseUrl, DefaultOllamaUrl))
    ensures r.Ok? ==> r.value.model == WithDefault(args.model, "granite3.3:2b")
    ensures r.Ok? ==> r.value.summaryLength == WithDefault(args.summaryLength, DefaultSummaryLength)
  {
    if args.apiKey.Some? then Err(UnexpectedArgument("api_key"))
    else
      var sequential := WithDefault(args.sequential, true) || SequentialFromEnv(env);
      Ok(Ollama(StripTrailingSlashes(WithDefault(args.baseUrl, DefaultOllamaUrl)),
                WithDefault(args.model, "granite3.3:2b"),
                WithDefault(args.summaryLength, DefaultSummaryLength),
                sequential, sequential))
  }

  const StrategyNames: set<string> := {"openai", "gemini", "anthropic", "ollama"}

  /** `get_summarizer(strategy, **kwargs)`. */
  function GetSummarizer(strategy: string, args: Args, env: Env, describe: string -> string): Result<Summarizer, BuildError>
  {
    if strategy == "openai" then NewOpenAI(args, env)
    else if strategy == "gemini" then NewGemini(args, env, describe)
    else if strategy == "anthropic" then NewAnthropic(args, env)
    else if strategy == "ollama" then NewOllama(args, env)
    else Err(UnknownStrategy(strategy))
  }

  /** The factory knows exactly four names, and each builds its own class. */
  lemma FactoryNames(strategy: string, args: Args, env: Env, describe: string -> string)
    ensures GetSummarizer(strategy, args, env, describe) == Err(UnknownStrategy(strategy)) <==> strategy !in StrategyNames
    ensures GetSummarizer(strategy, args, env, describe).Err? ==>
      (strategy in StrategyNames <==> !GetSummarizer(strategy, args, env, describe).error.UnknownStrategy?)
    ensures GetSummarizer(strategy, args, env, describe).Ok? ==>
      ClassName(GetSummarizer(strategy, args, env, describe).value) ==
        (if strategy == "openai" then "OpenAISummarizer"
         else if strategy == "gemini" then "GeminiSummarizer"
         else if strategy == "anthropic" then "AnthropicSummarizer"
         else "OllamaSummarizer")
  {
  }

  /** Without a key in the arguments or the environment, the three hosted
      strategies cannot be built, whatever else is passed. */
  lemma HostedNeedKey(strategy: string, args: Args, env: Env, describe: string -> string)
    requires strategy in {"openai", "gemini", "anthropic"}
    requires !Truthy(args.apiKey)
    requires !Truthy(EnvGet(env, "OPENAI_API_KEY")) && !Truthy(EnvGet(env, "GOOGLE_API_KEY"))
    requires !Truthy(EnvGet(env, "ANTHROPIC_API_KEY"))
    ensures GetSummarizer(strategy, args, env, describe).Err?
  {
  }

  // ---------------------------------------------------------------------
  // Prompts

  /** Only this many leading characters of the transcript are sent. */
  const MaxTranscript := 50000

  function SummaryLength(s: Summarizer): int
  {
    match s
    case Anthropic(_, _, n) => n
    case OpenAI(_, _, n) => n
    case Gemini(_, _, _, n) => n
    case Ollama(_, _, n, _, _) => n
  }

  /** The prompt text before the transcript. */
  function PromptHead(summaryLength: int, title: string): string
  {
    "Please provide a succinct summary of around " + IntToString(summaryLength)
    + " words of this video transcript.\nThe video title is: " + title + "\n\nTranscript:\n"
  }

  const LimitComment := "  # Limit to avoid token limits"
  const FocusLine := "\n\nFocus on the key points and main takeaways.\n"
  const PresentTenseLine := "Write the summary in present tense, as if you are directly conveying the talk's content while it is being given, not talking about the video or transcript itself.\n"
  const OutputOnlyLine := "In your response, output only the summary text itself:\n"
  const NoPreambleLine := "- Do NOT include any preamble like 'Summary:' or 'Here is a summary'.\n"
  const NoPhrasesLine := "- Do NOT say phrases like 'in this video', 'the speaker says', or 'this talk'.\n"
  const NoTitleAndSpeakers := "- Do NOT repeat or restate the talk title.\n- Do NOT list the speakers; assume they are handled separately."

  /** The prompt text after the transcript.  The three hosted strategies
      keep the literal `  # Limit to avoid token limits` after it; Claude and
      Ollama are also told to write in the present tense and to avoid
      phrases about the video. */
  function PromptTail(s: Summarizer): string
  {
    match s
    case Anthropic(_, _, _) =>
      LimitComment + FocusLine + PresentTenseLine + OutputOnlyLine + NoPreambleLine + NoPhrasesLine + NoTitleAndSpeakers
    case OpenAI(_, _, _) => LimitComment + FocusLine + OutputOnlyLine + NoPreambleLine + NoTitleAndSpeakers
    case Gemini(_, _, _, _) => LimitComment + FocusLine + OutputOnlyLine + NoPreambleLine + NoTitleAndSpeakers
    case Ollama(_, _, _, _, _) =>
      FocusLine + PresentTenseLine + OutputOnlyLine + NoPreambleLine + NoPhrasesLine + NoTitleAndSpeakers
  }

  /** The prompt sent for `text` (`text[:50000]`) and `title`. */
  function Prompt(s: Summarizer, text: string, title: string): string
  {
    PromptHead(SummaryLength(s), title) + Take(text, MaxTranscript) + PromptTail(s)
  }

  /** The prompt embeds the transcript's first 50000 characters, right after
      the head, and nothing more of it. */
  lemma PromptEmbedsPrefix(s: Summarizer, text: string, title: string)
    ensures var head := PromptHead(SummaryLength(s), title);
      var p := Prompt(s, text, title);
      |p| == |head| + (if |text| < MaxTranscript then |text| else MaxTranscript) + |PromptTail(s)|
      && p[|head|..|p| - |PromptTail(s)|] == text[..if |text| < MaxTranscript then |text| else MaxTranscript]
  {
    MiddleOf(PromptHead(SummaryLength(s), title), Take(text, MaxTranscript), PromptTail(s));
  }

  lemma MiddleOf(head: string, body: string, tail: string)
    ensures |head + body + tail| == |head| + |body| + |tail|
    ensures (head + body + tail)[|head|..|head + body + tail| - |tail|] == body
  {
    assert (head + body + tail)[|head|..|head| + |body|] == body;
  }

  /** Whatever follows the first 50000 characters does not change the prompt. */
  lemma PromptIgnoresTail(s: Summarizer, text: string, extra: string, title: string)
    requires |text| >= MaxTranscript
    ensures Prompt(s, text + extra, title) == Prompt(s, text, title)
  {
    assert (text + extra)[..MaxTranscript] == text[..MaxTranscript];
  }

  // ---------------------------------------------------------------------
  // Replies and sentinels

  const ErrorSentinel := "Summary unavailable due to an error."
  const RateLimitSentinel := "Summary unavailable - rate limit exceeded."
  const FormatSentinel := "Summary unavailable: unexpected Ollama response format."

  /** What a hosted client call does: return a text, or raise an error
      whose message is given. */
  datatype Reply = Replied(text: string) | Raised(error: string)

  /** What the Ollama call does: raise (connection or HTTP status error,
      unreadable body), or return a body whose `message.content` is a string
      (`Some`) or is missing or not a string (`None`). */
  datatype OllamaReply = OllamaRaised(error: string) | OllamaBody(content: Option<string>)

  /** The clients, as oracles: the hosted reply to a prompt on a given
      attempt (0-based), and the Ollama reply to a prompt. */
  datatype Backend = Backend(reply: (string, nat) -> Reply, ollama: string -> OllamaReply)

  /** How long the Gemini loop sleeps before a retry: the exponential backoff
      in seconds, or the number text suggested by the error message. */
  datatype Delay = Backoff(seconds: nat) | Suggested(text: string)

  const MaxRetries := 3
  const BaseDelay := 2

  function Pow2(n: nat): (r: nat)
    ensures r >= 1
  {
    if n == 0 then 1 else 2 * Pow2(n - 1)
  }

  /** A Gemini error counts as a rate limit when it mentions 429, quota or rate. */
  predicate IsRateLimit(error: string)
  {
    Contains(error, "429") || Contains(Lower(error), "quota") || Contains(Lower(error), "rate")
  }

  /** The longest prefix of ASCII digits. */
  function DigitRun(t: string): (r: string)
    ensures |r| <= |t| && r == t[..|r|] && AllDigits(r)
    ensures |r| == |t| || !IsDigit(t[|r|])
    decreases |t|
  {
    if t != [] && IsDigit(t[0]) then
      var rest := DigitRun(t[1..]);
      assert [t[0]] + rest == t[..1 + |rest|];
      [t[0]] + rest
    else []
  }

  /** The text `\d+\.?\d*` matches at the start of `t`, or "" when no digit starts it. */
  function NumberAt(t: string): (r: string)
    ensures r == [] || IsDigit(r[0])
    ensures |r| <= |t| && r == t[..|r|]
  {
    var whole := DigitRun(t);
    if whole == [] then []
    else if |whole| < |t| && t[|whole|] == '.' then
      var frac := DigitRun(t[|whole| + 1..]);
      assert whole + "." + frac == t[..|whole| + 1 + |frac|];
      whole + "." + frac
    else whole
  }

  /** `re.search(r'retry in (\d+\.?\d*)', s)` from position `from`: the
      number after the first "retry in " that is followed by a digit. */
  function RetryIn(s: string, from: nat): (r: Option<string>)
    requires from <= |s|
    ensures r.Some? ==> r.value != [] && IsDigit(r.value[0])
    decreases |s| - from
  {
    if from == |s| then None
    else if OccursAt(s, "retry in ", from) && NumberAt(s[from + 9..]) != [] then Some(NumberAt(s[from + 9..]))
    else RetryIn(s, from + 1)
  }

  /** The delay before retrying after rate-limit error `error` on `attempt`. */
  function RetryDelay(error: string, attempt: nat): Delay
  {
    match RetryIn(Lower(error), 0)
    case Some(t) => Suggested(t)
    case None => Backoff(BaseDelay * Pow2(attempt))
  }

  /** What one Gemini attempt leads to: the reply text, an error that ends
      the loop with the error sentinel, or a rate-limit error with the delay
      to sleep before the next attempt. */
  datatype Step = Answer(text: string) | GiveUp | RateLimited(delay: Delay)

  /** The outcome of attempt number `attempt` given the client's reply. */
  function StepOf(r: Reply, attempt: nat): Step
  {
    match r
    case Replied(t) => Answer(t)
    case Raised(e) => if IsRateLimit(e) then RateLimited(RetryDelay(e, attempt)) else GiveUp
  }

  /** A rate-limited step is exactly a rate-limit error, with the delay
      computed from that error. */
  lemma RateLimitedWhen(r: Reply, attempt: nat)
    ensures StepOf(r, attempt).RateLimited? <==> r.Raised? && IsRateLimit(r.error)
    ensures StepOf(r, attempt).RateLimited? ==> StepOf(r, attempt).delay == RetryDelay(r.error, attempt)
    ensures StepOf(r, attempt) == GiveUp <==> r.Raised? && !IsRateLimit(r.error)
    ensures r.Replied? ==> StepOf(r, attempt) == Answer(r.text)
  {
  }

  /** The steps of the Gemini loop for one prompt, attempt by attempt. */
  function GeminiSteps(prompt: string, reply: (string, nat) -> Reply): nat -> Step
  {
    (k: nat) => StepOf(reply(prompt, k), k)
  }

  /** What the Gemini retry loop returns and the delays it sleeps. */
  datatype GeminiOutcome = GeminiOutcome(summary: string, waits: seq<Delay>)

  /** The retry loop from `attempt` on: stop at a reply or at an error that
      is not a rate limit; after a rate limit, sleep and try again unless
      this was the last attempt, in which case give up too. */
  function RunSteps(step: nat -> Step, attempt: nat): (r: GeminiOutcome)
    requires attempt <= MaxRetries
    decreases MaxRetries - attempt
  {
    if attempt == MaxRetries then GeminiOutcome(RateLimitSentinel, [])
    else match step(attempt)
      case Answer(t) => GeminiOutcome(t, [])
      case GiveUp => GeminiOutcome(ErrorSentinel, [])
      case RateLimited(d) =>
        if attempt < MaxRetries - 1 then
          var rest := RunSteps(step, attempt + 1);
          GeminiOutcome(rest.summary, [d] + rest.waits)
        else GeminiOutcome(ErrorSentinel, [])
  }

  /** `GeminiSummarizer.summarize` after building the prompt: up to three
      attempts, retrying only rate-limit errors.  The loop runs until an
      attempt ends it (`done`) or the attempts are used up. */
  method GeminiSummarize(prompt: string, reply: (string, nat) -> Reply) returns (summary: string, waits: seq<Delay>)
    ensures GeminiOutcome(summary, waits) == RunSteps(GeminiSteps(prompt, reply), 0)
  {
    ghost var step := GeminiSteps(prompt, reply);
    waits := [];
    var attempt := 0;
    var done := false;
    summary := "";
    while attempt < MaxRetries && !done
      invariant attempt <= MaxRetries
      invariant !done ==> RunSteps(step, 0) == GeminiOutcome(RunSteps(step, attempt).summary, waits + RunSteps(step, attempt).waits)
      invariant done ==> RunSteps(step, 0) == GeminiOutcome(summary, waits)
      decreases MaxRetries - attempt, if done then 0 else 1
    {
      var outcome := ComputeStep(prompt, reply, attempt);
      summary, waits, attempt, done := Advance(step, attempt, outcome, waits);
    }
    if !done {
      summary := RateLimitSentinel;
    }
  }

  /** The loop body after the client call: an answer, or an error that is
      not a rate limit, or a rate limit on the last attempt, ends the loop
      with its summary; any other rate limit records its delay and moves on
      to the next attempt. */
  method Advance(ghost step: nat -> Step, attempt: nat, outcome: Step, waits: seq<Delay>)
    returns (summary: string, waits': seq<Delay>, attempt': nat, done: bool)
    requires attempt < MaxRetries && outcome == step(attempt)
    ensures !done ==> attempt' == attempt + 1
    ensures !done ==> waits' + RunSteps(step, attempt').waits == waits + RunSteps(step, attempt).waits
    ensures !done ==> RunSteps(step, attempt').summary == RunSteps(step, attempt).summary
    ensures done ==> attempt' == attempt && GeminiOutcome(summary, waits') == GeminiOutcome(RunSteps(step, attempt).summary, waits + RunSteps(step, attempt).waits)
  {
    summary, waits', attempt', done := "", waits, attempt, true;
    match outcome
    case Answer(t) =>
      summary := t;
    case GiveUp =>
      summary := ErrorSentinel;
    case RateLimited(retryDelay) =>
      if attempt < MaxRetries - 1 {
        ghost var next := RunSteps(step, attempt + 1);
        assert waits + ([retryDelay] + next.waits) == (waits + [retryDelay]) + next.waits;
        waits' := waits + [retryDelay];
        attempt' := attempt + 1;
        done := false;
      } else {
        summary := ErrorSentinel;
      }
  }

  /** The body of one attempt: the reply, or the error classified, with the
      delay of a rate limit computed. */
  method ComputeStep(prompt: string, reply: (string, nat) -> Reply, attempt: nat) returns (step: Step)
    ensures step == GeminiSteps(prompt, reply)(attempt)
  {
    match reply(prompt, attempt)
    case Replied(t) =>
      step := Answer(t);
    case Raised(e) =>
      if IsRateLimit(e) {
        var retryDelay := ComputeRetryDelay(e, attempt);
        step := RateLimited(retryDelay);
      } else {
        step := GiveUp;
      }
  }

  /** The delay computation of the retry branch: the backoff, replaced by the
      suggested delay when the lower-cased message has one. */
  method ComputeRetryDelay(error: string, attempt: nat) returns (retryDelay: Delay)
    ensures retryDelay == RetryDelay(error, attempt)
  {
    retryDelay := Backoff(BaseDelay * Pow2(attempt));
    var lowered := Lower(error);
    if Contains(lowered, "retry in") {
      match RetryIn(lowered, 0)
      case Some(t) => retryDelay := Suggested(t);
      case None =>
    } else if RetryIn(lowered, 0).Some? {
      SuggestedMentionsRetry(lowered);
    }
  }

  /** A rate-limit error mentions "retry in" whenever a delay is suggested. */
  lemma SuggestedMentionsRetry(s: string)
    requires RetryIn(s, 0).Some?
    ensures Contains(s, "retry in")
  {
    RetryInOccurs(s, 0);
  }

  lemma {:induction false} RetryInOccurs(s: string, from: nat)
    requires from <= |s| && RetryIn(s, from).Some?
    ensures Contains(s, "retry in")
    decreases |s| - from
  {
    if OccursAt(s, "retry in ", from) && NumberAt(s[from + 9..]) != [] {
      assert s[from..from + 8] == s[from..from + 9][..8];
      ContainsAt(s, "retry in", from);
    } else {
      RetryInOccurs(s, from + 1);
    }
  }

  /** The loop calls the client at most three times: one call per attempt,
      and a sleep only between attempts. */
  lemma {:induction false} AtMostThreeCalls(step: nat -> Step, attempt: nat)
    requires attempt < MaxRetries
    ensures |RunSteps(step, attempt).waits| <= MaxRetries - 1 - attempt
    decreases MaxRetries - attempt
  {
    if step(attempt).RateLimited? && attempt < MaxRetries - 1 {
      AtMostThreeCalls(step, attempt + 1);
    }
  }

  /** The `k`-th sleep of a run follows the rate limit of attempt
      `attempt + k`, which is not the last attempt, and lasts that rate
      limit's delay. */
  lemma {:induction false} WaitIsRateLimit(step: nat -> Step, attempt: nat, k: nat)
    requires attempt < MaxRetries && k < |RunSteps(step, attempt).waits|
    ensures attempt + k < MaxRetries - 1
    ensures step(attempt + k) == RateLimited(RunSteps(step, attempt).waits[k])
    decreases MaxRetries - attempt
  {
    if k > 0 {
      var rest := RunSteps(step, attempt + 1);
      assert RunSteps(step, attempt).waits == [step(attempt).delay] + rest.waits;
      WaitIsRateLimit(step, attempt + 1, k - 1);
    }
  }

  /** The loop returns the text of an answer on one of its attempts, or the
      error sentinel: the "rate limit exceeded" sentinel after the loop is
      unreachable.  The first answer or non-rate-limit error ends it. */
  lemma {:induction false} RunResult(step: nat -> Step, attempt: nat)
    requires attempt < MaxRetries
    ensures var r := RunSteps(step, attempt);
      r.summary == ErrorSentinel || exists k :: attempt <= k < MaxRetries && step(k) == Answer(r.summary)
    ensures step(attempt).Answer? ==> RunSteps(step, attempt) == GeminiOutcome(step(attempt).text, [])
    ensures step(attempt).GiveUp? ==> RunSteps(step, attempt) == GeminiOutcome(ErrorSentinel, [])
    decreases MaxRetries - attempt
  {
    if step(attempt).RateLimited? && attempt < MaxRetries - 1 {
      RunResult(step, attempt + 1);
    }
  }

  /** Each sleep of the Gemini loop follows a rate-limit error of an attempt
      before the last and lasts the delay computed from that error: 2 then 4
      seconds unless the message suggests a delay. */
  lemma GeminiDelays(prompt: string, reply: (string, nat) -> Reply, k: nat)
    requires k < |RunSteps(GeminiSteps(prompt, reply), 0).waits|
    ensures k < MaxRetries - 1
    ensures reply(prompt, k).Raised? && IsRateLimit(reply(prompt, k).error)
    ensures RunSteps(GeminiSteps(prompt, reply), 0).waits[k] == RetryDelay(reply(prompt, k).error, k)
  {
    WaitIsRateLimit(GeminiSteps(prompt, reply), 0, k);
    RateLimitedWhen(reply(prompt, k), k);
  }

  /** Without a suggested delay, the backoff before the second attempt is 2
      seconds and before the third 4 seconds. */
  lemma BackoffSeconds(error: string, attempt: nat)
    requires attempt < MaxRetries - 1
    requires RetryIn(Lower(error), 0).None?
    ensures RetryDelay(error, attempt) == Backoff(if attempt == 0 then 2 else 4)
  {
    if attempt == 1 {
      assert Pow2(1) == 2 * Pow2(0);
    }
  }

  /** Gemini returns a reply text received on one of its three attempts, or
      the error sentinel; an error that is not a rate limit ends it at once,
      without a sleep. */
  lemma GeminiResult(prompt: string, reply: (string, nat) -> Reply)
    ensures var r := RunSteps(GeminiSteps(prompt, reply), 0);
      r.summary == ErrorSentinel || exists k :: 0 <= k < MaxRetries && reply(prompt, k) == Replied(r.summary)
    ensures reply(prompt, 0).Raised? && !IsRateLimit(reply(prompt, 0).error) ==>
      RunSteps(GeminiSteps(prompt, reply), 0) == GeminiOutcome(ErrorSentinel, [])
    ensures reply(prompt, 0).Replied? ==>
      RunSteps(GeminiSteps(prompt, reply), 0) == GeminiOutcome(reply(prompt, 0).text, [])
  {
    var step := GeminiSteps(prompt, reply);
    RunResult(step, 0);
    var r := RunSteps(step, 0);
    if r.summary != ErrorSentinel {
      var k :| 0 <= k < MaxRetries && step(k) == Answer(r.summary);
      RateLimitedWhen(reply(prompt, k), k);
      assert reply(prompt, k) == Replied(r.summary);
    }
    RateLimitedWhen(reply(prompt, 0), 0);
  }

  /** `_summarize_once` after the call: the content when it is a non-blank
      string, else the format sentinel; a raised error gives the error sentinel. */
  function OllamaOutcome(reply: OllamaReply): string
  {
    match reply
    case OllamaRaised(_) => ErrorSentinel
    case OllamaBody(content) =>
      if content.Some? && Strip(content.value) != "" then content.value else FormatSentinel
  }

  /** Ollama never returns a blank summary: it returns the reply's content
      exactly when that is a non-blank string. */
  lemma OllamaNeverBlank(reply: OllamaReply)
    ensures !AllSpace(OllamaOutcome(reply))
    ensures reply.OllamaBody? && reply.content.Some? && !AllSpace(reply.content.value) ==>
      OllamaOutcome(reply) == reply.content.value
    ensures reply.OllamaBody? && (reply.content.None? || AllSpace(reply.content.value)) ==>
      OllamaOutcome(reply) == FormatSentinel
  {
    assert !IsSpace(ErrorSentinel[0]);
    assert !IsSpace(FormatSentinel[0]);
  }

  /** What `summarizer.summarize(text, title)` returns. */
  function SummaryOf(s: Summarizer, text: string, title: string, b: Backend): string
  {
    var prompt := Prompt(s, text, title);
    match s
    case Gemini(_, _, _, _) => RunSteps(GeminiSteps(prompt, b.reply), 0).summary
    case Ollama(_, _, _, _, _) => OllamaOutcome(b.ollama(prompt))
    case _ =>
      match b.reply(prompt, 0)
      case Replied(t) => t
      case Raised(_) => ErrorSentinel
  }

  /** Claude and OpenAI turn any error into exactly the error sentinel, and
      otherwise return the reply unchanged. */
  lemma HostedSentinel(s: Summarizer, text: string, title: string, b: Backend)
    requires s.Anthropic? || s.OpenAI?
    ensures b.reply(Prompt(s, text, title), 0).Raised? ==> SummaryOf(s, text, title, b) == ErrorSentinel
    ensures b.reply(Prompt(s, text, title), 0).Replied? ==>
      SummaryOf(s, text, title, b) == b.reply(Prompt(s, text, title), 0).text
  {
  }

  /** Every summary is a text some client returned for this prompt or one of
      the two reachable sentinels. */
  lemma SummaryOrigin(s: Summarizer, text: string, title: string, b: Backend)
    ensures var r := SummaryOf(s, text, title, b);
      var prompt := Prompt(s, text, title);
      r == ErrorSentinel || r == FormatSentinel
      || (exists k :: 0 <= k < MaxRetries && b.reply(prompt, k) == Replied(r))
      || b.ollama(prompt) == OllamaBody(Some(r))
  {
    var prompt := Prompt(s, text, title);
    match s
    case Gemini(_, _, _, _) => GeminiResult(prompt, b.reply);
    case Ollama(_, _, _, _, _) =>
    case Anthropic(_, _, _) =>
      if b.reply(prompt, 0).Replied? { assert b.reply(prompt, 0) == Replied(SummaryOf(s, text, title, b)); }
    case OpenAI(_, _, _) =>
      if b.reply(prompt, 0).Replied? { assert b.reply(prompt, 0) == Replied(SummaryOf(s, text, title, b)); }
  }

  /** `summarizer.summarize(text, title)`. */
  method Summarize(s: Summarizer, text: string, title: string, b: Backend) returns (summary: string)
    ensures summary == SummaryOf(s, text, title, b)
  {
    var prompt := Prompt(s, text, title);
    match s
    case Gemini(_, _, _, _) =>
      var waits;
      summary, waits := GeminiSummarize(prompt, b.reply);
    case Ollama(_, _, _, _, _) =>
      summary := OllamaOutcome(b.ollama(prompt));
    case _ =>
      match b.reply(prompt, 0)
      case Replied(t) => summary := t;
      case Raised(_) => summary := ErrorSentinel;
  }
}
