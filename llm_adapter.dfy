/** The LLM gateway `query_llm` (src/core/llm_adapter.py): one
    chat-completions request per attempt, the first choice's content as the
    answer, token usage recorded in a module-wide ledger, and transport
    failures retried by `retry_on_exception(3, 2, 2, (RequestException,))`.
    The i-th HTTP exchange is an oracle `exchanges(i)`; the API key is a
    parameter instead of an environment read. */
module LlmAdapter {
  import opened Common
  import opened PyValue
  import opened Http
  import opened RetryHandler
  import opened TokenTracking

  /** The model every gateway request names by default. */
  const SupportedModel := "llama-3.1-8b-instant"

  /** The gateway's retry policy: only `RequestException` is retried. */
  const LlmRetry := RetryConfig(3, 2.0, 2.0, [RequestException])

  /** One run of the undecorated function: what it returns or raises, and the
      token count it hands to the ledger if it gets that far. */
  datatype Attempt = Attempt(outcome: Outcome<Value>, logged: Option<int>)

  function Fail(e: Exc): Attempt {
    Attempt(Raised(e), None)
  }

  function HttpErrorMessage(status: int, text: string): string {
    "HTTP Error " + IntToString(status) + ": " + text
  }

  /** `tokens / 1000` and `total_tokens += tokens` accept an int (a bool is
      one) and raise `TypeError` for anything else. */
  function TokenCount(v: Value): Option<int> {
    match v
    case Int(i) => Some(i)
    case Bool(b) => Some(if b then 1 else 0)
    case _ => None
  }

  /** A valid prompt and key: the guards before the request pass. */
  predicate ValidRequest(prompt: string, apiKey: Option<string>) {
    Strip(prompt) != [] && apiKey.Some? && apiKey.value != []
  }

  /** A transport-level failure: no response, a non-200 status, or a body that is not JSON. */
  predicate TransportFailure(x: HttpExchange) {
    x.NetworkError? || x.status != 200 || x.body.None?
  }

  /** The undecorated `query_llm` on one exchange. */
  function QueryOnce(prompt: string, apiKey: Option<string>, x: HttpExchange): (a: Attempt)
    ensures (a.outcome.Raised? && a.outcome.exc.cls == RequestException) <==>
              ValidRequest(prompt, apiKey) && TransportFailure(x)
    ensures a.logged.Some? ==> ValidRequest(prompt, apiKey) && x.Response? && x.status == 200 && x.body.Some?
    ensures a.outcome.Returned? ==> a.logged.Some? && Truthy(a.outcome.value)
  {
    if Strip(prompt) == [] then Fail(Exc(ValueError, "Prompt cannot be empty"))
    else if apiKey.None? || apiKey.value == [] then
      Fail(Exc(KeyError, "GROQ_API_KEY is not set. Please define it in your .env file."))
    else if x.NetworkError? then Fail(Exc(RequestException, x.message))
    else if x.status != 200 then Fail(Exc(RequestException, HttpErrorMessage(x.status, x.text)))
    else
      match x.Json()
      case Raised(e) => Fail(e)
      case Returned(result) => Parsed(result)
  }

  /** A 200 response whose body parsed: read the usage, log it, then extract the content. */
  function Parsed(result: Value): (a: Attempt)
    ensures a.outcome.Raised? ==> a.outcome.exc.cls != RequestException
    ensures a.logged.Some? ==> result.Dict?
    ensures a.outcome.Returned? ==> a.logged.Some? && Truthy(a.outcome.value)
  {
    match AttrGet(result, "usage", Dict([]))
    case Raised(e) => Fail(e)
    case Returned(usage) =>
      match AttrGet(usage, "total_tokens", Int(0))
      case Raised(e) => Fail(e)
      case Returned(t) =>
        if TokenCount(t).None? then
          Fail(Exc(TypeError, "unsupported operand type(s) for /: '" + TypeName(t) + "' and 'int'"))
        else Attempt(Extracted(result), TokenCount(t))
  }

  /** The first choice's message content, which must be truthy. */
  function Extracted(result: Value): (r: Outcome<Value>)
    requires result.Dict?
    ensures r.Raised? ==> r.exc.cls != RequestException
    ensures r.Returned? ==> Truthy(r.value)
  {
    var choices := GetOr(result.entries, "choices", Null);
    if !Truthy(choices) then Raised(Exc(ValueError, "LLM did not return any choices"))
    else
      match FirstItem(choices)
      case Raised(e) => Raised(e)
      case Returned(first) =>
        match AttrGet(first, "message", Dict([]))
        case Raised(e) => Raised(e)
        case Returned(message) =>
          match AttrGet(message, "content", Null)
          case Raised(e) => Raised(e)
          case Returned(content) =>
            if !Truthy(content) then Raised(Exc(ValueError, "No content in first choice from LLM response"))
            else Returned(content)
  }

  /** Under the gateway's policy an exception is retried exactly when it is a `RequestException`. */
  lemma RetriedIffRequestException(e: Exc)
    ensures Retryable(LlmRetry, e) <==> e.cls == RequestException
  {
    assert RequestException in LlmRetry.allowed;
    assert forall c :: c in LlmRetry.allowed ==> c == RequestException;
  }

  /** The decorated function's i-th invocation. */
  function AttemptFn(prompt: string, apiKey: Option<string>, exchanges: nat -> HttpExchange): nat -> Outcome<Value> {
    (i: nat) => QueryOnce(prompt, apiKey, exchanges(i)).outcome
  }

  /** The ledger entries one attempt adds; `log_usage` is called without a
      model, so the entry names the ledger's default model. */
  function LogEntries(a: Attempt): seq<UsageEntry> {
    if a.logged.Some? then [UsageEntry(DefaultModel, a.logged.value)] else []
  }

  function LoggedTokens(a: Attempt): int {
    if a.logged.Some? then a.logged.value else 0
  }

  /** With valid inputs, an attempt is retried exactly when the exchange failed
      at the transport level; content and schema problems are not retried. */
  lemma RetriedIffTransportFailure(prompt: string, apiKey: Option<string>, x: HttpExchange)
    requires ValidRequest(prompt, apiKey)
    ensures AllowedFailure(LlmRetry, QueryOnce(prompt, apiKey, x).outcome) <==> TransportFailure(x)
  {
    var a := QueryOnce(prompt, apiKey, x);
    if a.outcome.Raised? {
      RetriedIffRequestException(a.outcome.exc);
    }
  }

  /** An attempt that is retried never reaches the ledger. */
  lemma RetriedAttemptLogsNothing(prompt: string, apiKey: Option<string>, x: HttpExchange)
    ensures AllowedFailure(LlmRetry, QueryOnce(prompt, apiKey, x).outcome) ==> QueryOnce(prompt, apiKey, x).logged.None?
  {
    var a := QueryOnce(prompt, apiKey, x);
    if a.outcome.Raised? {
      RetriedIffRequestException(a.outcome.exc);
    }
  }

  /** Every attempt before the one that stops the retry loop logged nothing. */
  lemma RetriedAttemptsLogNothing(prompt: string, apiKey: Option<string>, exchanges: nat -> HttpExchange)
    ensures forall j :: 0 <= j < FirstStop(LlmRetry, AttemptFn(prompt, apiKey, exchanges)) ==>
              QueryOnce(prompt, apiKey, exchanges(j)).logged.None?
  {
    var call := AttemptFn(prompt, apiKey, exchanges);
    forall j | 0 <= j < FirstStop(LlmRetry, call)
      ensures QueryOnce(prompt, apiKey, exchanges(j)).logged.None?
    {
      assert AllowedFailure(LlmRetry, call(j));
      RetriedAttemptLogsNothing(prompt, apiKey, exchanges(j));
    }
  }

  /** `query_llm(prompt)` as callers see it: `sleeps` are the pauses between
      attempts, `attempts` the invocations made. The ledger receives the
      entry of the last attempt only; every earlier attempt was retried and
      logged nothing. */
  method QueryLlm(ledger: TokenTracker, prompt: string, apiKey: Option<string>, exchanges: nat -> HttpExchange)
    returns (result: Outcome<Value>, attempts: nat, sleeps: seq<real>)
    requires ledger.Valid()
    modifies ledger
    ensures var call := AttemptFn(prompt, apiKey, exchanges);
      var k := FirstStop(LlmRetry, call);
      && sleeps == Delays(2.0, 2.0, k)
      && (k < 3 ==> result == call(k) && attempts == k + 1)
      && (k == 3 ==> result == Raised(TerminalError("query_llm", 3)) && attempts == 3)
    ensures 1 <= attempts <= 3
    ensures forall j :: 0 <= j < attempts - 1 ==> QueryOnce(prompt, apiKey, exchanges(j)).logged.None?
    ensures ledger.Valid()
    ensures var last := QueryOnce(prompt, apiKey, exchanges(attempts - 1));
      && ledger.history == old(ledger.history) + LogEntries(last)
      && ledger.totalTokens == old(ledger.totalTokens) + LoggedTokens(last)
  {
    var call := AttemptFn(prompt, apiKey, exchanges);
    result, attempts, sleeps := Retry(LlmRetry, "query_llm", call);
    RetriedAttemptsLogNothing(prompt, apiKey, exchanges);
    var last := QueryOnce(prompt, apiKey, exchanges(attempts - 1));
    if last.logged.Some? {
      ledger.LogUsage(last.logged.value, DefaultModel);
    }
  }

  /** A blank prompt fails at once with `ValueError`, whatever the network does. */
  lemma BlankPromptFailsFast(prompt: string, apiKey: Option<string>, exchanges: nat -> HttpExchange)
    requires Strip(prompt) == []
    ensures FirstStop(LlmRetry, AttemptFn(prompt, apiKey, exchanges)) == 0
    ensures AttemptFn(prompt, apiKey, exchanges)(0) == Raised(Exc(ValueError, "Prompt cannot be empty"))
  {
    var a := QueryOnce(prompt, apiKey, exchanges(0));
    assert a == Fail(Exc(ValueError, "Prompt cannot be empty"));
    assert AttemptFn(prompt, apiKey, exchanges)(0) == a.outcome;
    RetriedIffRequestException(a.outcome.exc);
    FirstStopUnique(LlmRetry, AttemptFn(prompt, apiKey, exchanges), 0);
  }

  /** A missing or empty API key fails at once with `KeyError`, whatever the network does. */
  lemma MissingKeyFailsFast(prompt: string, apiKey: Option<string>, exchanges: nat -> HttpExchange)
    requires Strip(prompt) != []
    requires apiKey.None? || apiKey.value == []
    ensures FirstStop(LlmRetry, AttemptFn(prompt, apiKey, exchanges)) == 0
    ensures AttemptFn(prompt, apiKey, exchanges)(0).Raised?
    ensures AttemptFn(prompt, apiKey, exchanges)(0).exc.cls == KeyError
  {
    var a := QueryOnce(prompt, apiKey, exchanges(0));
    assert a == Fail(Exc(KeyError, "GROQ_API_KEY is not set. Please define it in your .env file."));
    assert AttemptFn(prompt, apiKey, exchanges)(0) == a.outcome;
    RetriedIffRequestException(a.outcome.exc);
    FirstStopUnique(LlmRetry, AttemptFn(prompt, apiKey, exchanges), 0);
  }

  /** Past the guards and the transport, an attempt is decided by the parsed body. */
  lemma AcceptedResponseParsed(prompt: string, apiKey: Option<string>, x: HttpExchange)
    requires ValidRequest(prompt, apiKey)
    requires x.Response? && x.status == 200 && x.body.Some?
    ensures QueryOnce(prompt, apiKey, x) == Parsed(x.body.value)
  {
    assert x.Json() == Returned(x.body.value);
  }

  /** The usage block of a parsed body reports `t` tokens: `usage` (an empty
      dict when absent) is a dict whose `total_tokens` (0 when absent) is an int. */
  predicate ReportsUsage(result: Value, t: int) {
    result.Dict? &&
    var usage := GetOr(result.entries, "usage", Dict([]));
    usage.Dict? && TokenCount(GetOr(usage.entries, "total_tokens", Int(0))) == Some(t)
  }

  /** A body that reports `t` tokens logs `t` and goes on to the extraction. */
  lemma UsageLogged(result: Value, t: int)
    requires ReportsUsage(result, t)
    ensures Parsed(result) == Attempt(Extracted(result), Some(t))
  {
    var usage := GetOr(result.entries, "usage", Dict([]));
    assert AttrGet(result, "usage", Dict([])) == Returned(usage);
    assert AttrGet(usage, "total_tokens", Int(0)) == Returned(GetOr(usage.entries, "total_tokens", Int(0)));
  }

  /** `{"usage": {"total_tokens": t}}` reports `t` tokens. */
  lemma UsageBlockReports(result: Value, u: Entries, t: int)
    requires result.Dict? && Get(result.entries, "usage") == Some(Dict(u))
    requires Get(u, "total_tokens") == Some(Int(t))
    ensures ReportsUsage(result, t)
  {
    assert GetOr(result.entries, "usage", Dict([])) == Dict(u);
    assert GetOr(u, "total_tokens", Int(0)) == Int(t);
  }

  /** A body without "usage" reports zero tokens. */
  lemma NoUsageReportsZero(result: Value)
    requires result.Dict? && "usage" !in Keys(result.entries)
    ensures ReportsUsage(result, 0)
  {
    assert Get(result.entries, "usage") == None;
    assert GetOr(result.entries, "usage", Dict([])) == Dict([]);
    assert GetOr([], "total_tokens", Int(0)) == Int(0);
  }

  /** A 200 response with a JSON dict that reports `t` tokens and has no
      choices reaches the ledger with `t` tokens before it is rejected; the
      rejection is a `ValueError`, which is not retried. */
  lemma MalformedBodyStillLogged(prompt: string, apiKey: Option<string>, x: HttpExchange, t: int)
    requires ValidRequest(prompt, apiKey)
    requires x.Response? && x.status == 200 && x.body.Some?
    requires ReportsUsage(x.body.value, t)
    requires !Truthy(GetOr(x.body.value.entries, "choices", Null))
    ensures QueryOnce(prompt, apiKey, x).logged == Some(t)
    ensures QueryOnce(prompt, apiKey, x).outcome == Raised(Exc(ValueError, "LLM did not return any choices"))
    ensures !AllowedFailure(LlmRetry, QueryOnce(prompt, apiKey, x).outcome)
  {
    AcceptedResponseParsed(prompt, apiKey, x);
    UsageLogged(x.body.value, t);
    RetriedIffTransportFailure(prompt, apiKey, x);
  }

  /** The same without a "usage" key: 0 tokens are logged. */
  lemma MalformedBodyWithoutUsage(prompt: string, apiKey: Option<string>, x: HttpExchange)
    requires ValidRequest(prompt, apiKey)
    requires x.Response? && x.status == 200 && x.body.Some? && x.body.value.Dict?
    requires "usage" !in Keys(x.body.value.entries)
    requires !Truthy(GetOr(x.body.value.entries, "choices", Null))
    ensures QueryOnce(prompt, apiKey, x).logged == Some(0)
    ensures QueryOnce(prompt, apiKey, x).outcome == Raised(Exc(ValueError, "LLM did not return any choices"))
  {
    NoUsageReportsZero(x.body.value);
    MalformedBodyStillLogged(prompt, apiKey, x, 0);
  }

  /** A 200 response that reports `t` tokens and whose first choice carries
      a non-empty message content yields exactly that content, `t` logged. */
  lemma AnswerIsFirstContent(prompt: string, apiKey: Option<string>, x: HttpExchange, t: int,
                             first: Value, rest: seq<Value>, content: Value)
    requires ValidRequest(prompt, apiKey)
    requires x.Response? && x.status == 200 && x.body.Some?
    requires ReportsUsage(x.body.value, t)
    requires GetOr(x.body.value.entries, "choices", Null) == List([first] + rest)
    requires first.Dict? && GetOr(first.entries, "message", Dict([])).Dict?
    requires GetOr(GetOr(first.entries, "message", Dict([])).entries, "content", Null) == content
    requires Truthy(content)
    ensures QueryOnce(prompt, apiKey, x).outcome == Returned(content)
    ensures QueryOnce(prompt, apiKey, x).logged == Some(t)
  {
    var result := x.body.value;
    AcceptedResponseParsed(prompt, apiKey, x);
    UsageLogged(result, t);
    var message := GetOr(first.entries, "message", Dict([]));
    assert FirstItem(GetOr(result.entries, "choices", Null)) == Returned(first);
    assert AttrGet(first, "message", Dict([])) == Returned(message);
    assert AttrGet(message, "content", Null) == Returned(content);
    assert Extracted(result) == Returned(content);
  }

  /** The usual answer `{"choices": [{"message": {"content": c}}], "usage":
      {"total_tokens": t}}`: `c` is returned and `t` logged. */
  lemma TypicalAnswer(prompt: string, apiKey: Option<string>, x: HttpExchange, t: int, u: Entries,
                      first: Value, rest: seq<Value>, content: Value)
    requires ValidRequest(prompt, apiKey)
    requires x.Response? && x.status == 200 && x.body.Some? && x.body.value.Dict?
    requires Get(x.body.value.entries, "usage") == Some(Dict(u)) && Get(u, "total_tokens") == Some(Int(t))
    requires GetOr(x.body.value.entries, "choices", Null) == List([first] + rest)
    requires first.Dict? && GetOr(first.entries, "message", Dict([])).Dict?
    requires GetOr(GetOr(first.entries, "message", Dict([])).entries, "content", Null) == content
    requires Truthy(content)
    ensures QueryOnce(prompt, apiKey, x) == Attempt(Returned(content), Some(t))
  {
    UsageBlockReports(x.body.value, u, t);
    AnswerIsFirstContent(prompt, apiKey, x, t, first, rest, content);
  }

  /** The gateway's sleep schedule: 2, 4 and 8 seconds. */
  lemma LlmSchedule()
    ensures Delays(LlmRetry.delay, LlmRetry.backoff, Budget(LlmRetry)) == [2.0, 4.0, 8.0]
  {
    assert Delays(8.0, 2.0, 1) == [8.0] + Delays(16.0, 2.0, 0);
    assert Delays(4.0, 2.0, 2) == [4.0] + Delays(8.0, 2.0, 1);
    assert Delays(2.0, 2.0, 3) == [2.0] + Delays(4.0, 2.0, 2);
  }

  /** Three transport failures in a row: all three attempts are made and
      followed by a sleep, and the generic exception is raised. */
  lemma PersistentOutageExhaustsRetries(prompt: string, apiKey: Option<string>, exchanges: nat -> HttpExchange)
    requires ValidRequest(prompt, apiKey)
    requires forall i :: 0 <= i < 3 ==> TransportFailure(exchanges(i))
    ensures FirstStop(LlmRetry, AttemptFn(prompt, apiKey, exchanges)) == Budget(LlmRetry)
  {
    var call := AttemptFn(prompt, apiKey, exchanges);
    forall j | 0 <= j < 3 ensures AllowedFailure(LlmRetry, call(j)) {
      RetriedIffTransportFailure(prompt, apiKey, exchanges(j));
    }
    FirstStopUnique(LlmRetry, call, 3);
  }

  /** One transport failure then a 200 response with a JSON body: two
      attempts and one 2-second sleep, whether or not that body holds an
      answer; a malformed answer is not retried. */
  lemma RecoversAfterOneFailure(prompt: string, apiKey: Option<string>, exchanges: nat -> HttpExchange)
    requires ValidRequest(prompt, apiKey)
    requires TransportFailure(exchanges(0)) && !TransportFailure(exchanges(1))
    ensures FirstStop(LlmRetry, AttemptFn(prompt, apiKey, exchanges)) == 1
    ensures Delays(LlmRetry.delay, LlmRetry.backoff, FirstStop(LlmRetry, AttemptFn(prompt, apiKey, exchanges))) == [2.0]
  {
    var call := AttemptFn(prompt, apiKey, exchanges);
    assert Budget(LlmRetry) == 3;
    assert call(0) == QueryOnce(prompt, apiKey, exchanges(0)).outcome;
    assert call(1) == QueryOnce(prompt, apiKey, exchanges(1)).outcome;
    RetriedIffTransportFailure(prompt, apiKey, exchanges(0));
    RetriedIffTransportFailure(prompt, apiKey, exchanges(1));
    assert AllowedFailure(LlmRetry, call(0)) && !AllowedFailure(LlmRetry, call(1));
    FirstStopAfterOne(LlmRetry, call);
    assert Delays(2.0, 2.0, 1) == [2.0] + Delays(4.0, 2.0, 0);
  }
}
