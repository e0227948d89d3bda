/** The `Command` retry controller of execute.go: one POST per attempt,
    the outcome rendered to the error text the code produces, a substring
    classifier deciding whether to try again, at most three attempts and
    an exponential sleep between them. */
module Execute {
  import opened GoStrings
  import opened Types

  const MaxRetries: nat := 3
  /** time.Second, counted in seconds. */
  const BaseDelay: nat := 1

  /** The sleep after failed attempt `attempt` (0-based): 2^attempt seconds. */
  function Backoff(attempt: nat): nat {
    Pow2(attempt) * BaseDelay
  }

  // ---------------------------------------------------------------------
  // One attempt (executeSingleRequest)
  // ---------------------------------------------------------------------

  const CreateFailedPrefix := "failed to create request: "
  const TransportFailedPrefix := "HTTP request failed: "
  const StatusFailedPrefix := "API request failed with status "
  const DecodeFailedPrefix := "failed to decode response: "
  const NoChoicesError := "no choices in response"

  /** The message for a non-200 answer: the code in decimal, then the body. */
  function StatusError(status: int, body: string): string {
    StatusFailedPrefix + IntToDecimal(status) + ": " + body
  }

  /** Classifies one round trip into a response or the error text the code
      returns; only a 200 that decodes into at least one choice succeeds. */
  function Attempt(outcome: HttpOutcome): (r: Result<ChatCompletionResponse, string>)
    ensures r.Ok? <==> outcome.Answered? && outcome.status == StatusOK
                       && outcome.decoded.Decoded? && |outcome.decoded.response.choices| > 0
    ensures r.Ok? ==> r.value == outcome.decoded.response && |r.value.choices| >= 1
    ensures outcome.Answered? && outcome.status != StatusOK ==>
              r == Err(StatusError(outcome.status, outcome.body))
  {
    match outcome
    case RequestRejected(cause) => Err(CreateFailedPrefix + cause)
    case TransportFailed(cause) => Err(TransportFailedPrefix + cause)
    case Answered(status, body, decoded) =>
      if status != StatusOK then Err(StatusError(status, body))
      else
        match decoded
        case DecodeFailed(cause) => Err(DecodeFailedPrefix + cause)
        case Decoded(response) =>
          if |response.choices| == 0 then Err(NoChoicesError) else Ok(response)
  }

  // ---------------------------------------------------------------------
  // The retry decision (shouldRetry)
  // ---------------------------------------------------------------------

  const NetworkMarker := "HTTP request failed"
  const StatusMarker := "API request failed with status"
  const ServerErrorMarker := "status 5"
  const DecodeMarker := "failed to decode response"

  /** Substring tests on the error text, in this order: a network failure
      is retried; a status failure is retried when "status 5" occurs
      anywhere; a decode failure is retried; anything else is not. */
  function ShouldRetry(errStr: string): bool {
    if Contains(errStr, NetworkMarker) then true
    else if Contains(errStr, StatusMarker) then Contains(errStr, ServerErrorMarker)
    else Contains(errStr, DecodeMarker)
  }

  /** The create-failure prefix neither holds nor completes any marker. */
  lemma CreatePrefixTransparent(cause: string)
    ensures Contains(CreateFailedPrefix + cause, NetworkMarker) == Contains(cause, NetworkMarker)
    ensures Contains(CreateFailedPrefix + cause, StatusMarker) == Contains(cause, StatusMarker)
  {
    assert 'H' !in CreateFailedPrefix && 'A' !in CreateFailedPrefix;
    ContainsAfterFreePrefix(CreateFailedPrefix, cause, NetworkMarker);
    ContainsAfterFreePrefix(CreateFailedPrefix, cause, StatusMarker);
  }

  lemma CreatePrefixNoServerError(cause: string)
    ensures Contains(CreateFailedPrefix + cause, ServerErrorMarker) == Contains(cause, ServerErrorMarker)
  {
    // The prefix's only 's' is followed by "t:", not "ta".
    var x := "st: " + cause;
    assert CreateFailedPrefix + cause == "failed to create reque" + x;
    ContainsAfterFreePrefix("failed to create reque", x, ServerErrorMarker);
    ContainsSkipHead(x, ServerErrorMarker, 2);
    assert x[1..] == "t: " + cause;
    ContainsAfterFreePrefix("t: ", cause, ServerErrorMarker);
  }

  lemma CreatePrefixNoDecode(cause: string)
    ensures Contains(CreateFailedPrefix + cause, DecodeMarker) == Contains(cause, DecodeMarker)
  {
    // The prefix's only 'f' starts "failed to c", not "failed to d".
    var s := CreateFailedPrefix + cause;
    assert s[10] == 'c' && DecodeMarker[10] == 'd';
    ContainsSkipHead(s, DecodeMarker, 10);
    assert s[1..] == "ailed to create request: " + cause;
    CreateTailNoDecode(cause);
  }

  lemma CreateTailNoDecode(cause: string)
    ensures Contains("ailed to create request: " + cause, DecodeMarker) == Contains(cause, DecodeMarker)
  {
    assert 'f' !in "ailed to create request: ";
    ContainsAfterFreePrefix("ailed to create request: ", cause, DecodeMarker);
  }

  /** A request that could not be built is retried exactly when its cause
      alone would be: the prefix carries no marker. */
  lemma CreateFailureRetry(cause: string)
    ensures ShouldRetry(CreateFailedPrefix + cause) == ShouldRetry(cause)
  {
    CreatePrefixTransparent(cause);
    CreatePrefixNoServerError(cause);
    CreatePrefixNoDecode(cause);
  }

  /** A transport failure is always retried. */
  lemma TransportFailureRetried(cause: string)
    ensures ShouldRetry(TransportFailedPrefix + cause)
  {
    assert TransportFailedPrefix + cause == "" + NetworkMarker + (": " + cause);
    ContainsInfix("", NetworkMarker, ": " + cause);
  }

  /** A status message begins with the status marker. */
  lemma StatusHasMarker(status: int, body: string)
    ensures Contains(StatusError(status, body), StatusMarker)
  {
    var rest := " " + IntToDecimal(status) + ": " + body;
    assert StatusError(status, body) == "" + StatusMarker + rest;
    ContainsInfix("", StatusMarker, rest);
  }

  /** Before its body, a status message holds no 'H', so a network marker
      can only come from the body. */
  lemma StatusNetworkFromBody(status: int, body: string)
    ensures Contains(StatusError(status, body), NetworkMarker) == Contains(body, NetworkMarker)
  {
    var d := IntToDecimal(status);
    var head := StatusFailedPrefix + d + ": ";
    assert 'H' !in d by {
      forall i | 0 <= i < |d| ensures d[i] != 'H' {
        assert IsDigit(d[i]) || d[i] == '-';
      }
    }
    assert 'H' !in StatusFailedPrefix;
    assert StatusError(status, body) == head + body;
    ContainsAfterFreePrefix(head, body, NetworkMarker);
  }

  /** In "status <code>: <body>", "status 5" occurs exactly when the code
      prints with a leading '5' or the body holds it. */
  lemma StatusWordServerError(d: string, body: string)
    requires |d| > 0 && 's' !in d
    ensures Contains("status " + d + ": " + body, ServerErrorMarker) <==>
              d[0] == '5' || Contains(body, ServerErrorMarker)
  {
    var y := "status " + d + ": " + body;
    if d[0] == '5' {
      assert y[..|ServerErrorMarker|] == ServerErrorMarker;
      assert MatchAt(y, ServerErrorMarker, 0);
    } else {
      assert y[7] == d[0];
      ContainsSkipHead(y, ServerErrorMarker, 7);
      var z := "s " + d + ": " + body;
      assert y[1..] == "tatu" + z;
      ContainsAfterFreePrefix("tatu", z, ServerErrorMarker);
      ContainsSkipHead(z, ServerErrorMarker, 1);
      assert z[1..] == (" " + d + ": ") + body;
      ContainsAfterFreePrefix(" " + d + ": ", body, ServerErrorMarker);
    }
  }

  /** Before its "status" word, a status message holds only one 's',
      which is followed by "t f". */
  lemma FailedWithNoServerError(y: string)
    ensures Contains("API request failed with " + y, ServerErrorMarker) <==> Contains(y, ServerErrorMarker)
  {
    var x := "st failed with " + y;
    assert "API request failed with " + y == "API reque" + x;
    ContainsAfterFreePrefix("API reque", x, ServerErrorMarker);
    ContainsSkipHead(x, ServerErrorMarker, 2);
    assert x[1..] == "t failed with " + y;
    ContainsAfterFreePrefix("t failed with ", y, ServerErrorMarker);
  }

  lemma StatusServerError(status: int, body: string)
    ensures Contains(StatusError(status, body), ServerErrorMarker) <==>
              IntToDecimal(status)[0] == '5' || Contains(body, ServerErrorMarker)
  {
    var d := IntToDecimal(status);
    var y := "status " + d + ": " + body;
    assert StatusError(status, body) == "API request failed with " + y;
    FailedWithNoServerError(y);
    assert 's' !in d;
    StatusWordServerError(d, body);
  }

  /** A non-200 answer is retried exactly when its code prints with a
      leading '5' or its body mentions a network failure or "status 5". */
  lemma StatusFailureRetry(status: int, body: string)
    ensures ShouldRetry(StatusError(status, body)) <==>
              IntToDecimal(status)[0] == '5'
              || Contains(body, NetworkMarker) || Contains(body, ServerErrorMarker)
  {
    StatusHasMarker(status, body);
    StatusNetworkFromBody(status, body);
    StatusServerError(status, body);
  }

  /** With the usual three-digit codes: every 5xx is retried, and a code
      outside 500-599 is retried only because of what its body says. */
  lemma ThreeDigitStatusRetry(status: int, body: string)
    requires 100 <= status < 1000
    ensures 500 <= status < 600 ==> ShouldRetry(StatusError(status, body))
    ensures !(500 <= status < 600) ==>
              (ShouldRetry(StatusError(status, body)) <==>
                 Contains(body, NetworkMarker) || Contains(body, ServerErrorMarker))
  {
    StatusFailureRetry(status, body);
    ThreeDigitLead(status);
  }

  /** The decode-failure prefix holds the decode marker and no other. */
  lemma DecodePrefixMarkers(cause: string)
    ensures Contains(DecodeFailedPrefix + cause, DecodeMarker)
    ensures Contains(DecodeFailedPrefix + cause, NetworkMarker) == Contains(cause, NetworkMarker)
    ensures Contains(DecodeFailedPrefix + cause, StatusMarker) == Contains(cause, StatusMarker)
  {
    assert 'H' !in DecodeFailedPrefix && 'A' !in DecodeFailedPrefix;
    ContainsAfterFreePrefix(DecodeFailedPrefix, cause, NetworkMarker);
    ContainsAfterFreePrefix(DecodeFailedPrefix, cause, StatusMarker);
    DecodePrefixHasMarker(cause);
  }

  lemma DecodePrefixHasMarker(cause: string)
    ensures Contains(DecodeFailedPrefix + cause, DecodeMarker)
  {
    assert DecodeFailedPrefix + cause == "" + DecodeMarker + (": " + cause);
    ContainsInfix("", DecodeMarker, ": " + cause);
  }

  lemma DecodePrefixNoServerError(cause: string)
    ensures Contains(DecodeFailedPrefix + cause, ServerErrorMarker) == Contains(cause, ServerErrorMarker)
  {
    // The prefix's two 's' are followed by 'p' and 'e'.
    var x := "sponse: " + cause;
    assert DecodeFailedPrefix + cause == "failed to decode re" + x;
    ContainsAfterFreePrefix("failed to decode re", x, ServerErrorMarker);
    ContainsSkipHead(x, ServerErrorMarker, 1);
    var y := "se: " + cause;
    assert x[1..] == "pon" + y;
    ContainsAfterFreePrefix("pon", y, ServerErrorMarker);
    ContainsSkipHead(y, ServerErrorMarker, 1);
    assert y[1..] == "e: " + cause;
    ContainsAfterFreePrefix("e: ", cause, ServerErrorMarker);
  }

  /** A decode failure is retried unless its cause looks like a status
      failure without "status 5" and without a network failure. */
  lemma DecodeFailureRetry(cause: string)
    ensures ShouldRetry(DecodeFailedPrefix + cause) <==>
              Contains(cause, NetworkMarker) || !Contains(cause, StatusMarker)
              || Contains(cause, ServerErrorMarker)
  {
    DecodePrefixMarkers(cause);
    DecodePrefixNoServerError(cause);
  }

  /** An answer without choices is never retried. */
  lemma NoChoicesNotRetried()
    ensures !ShouldRetry(NoChoicesError)
  {
    assert 'H' !in NoChoicesError && 'A' !in NoChoicesError && 'f' !in NoChoicesError;
    NotContainsMissingChar(NoChoicesError, NetworkMarker, 0);
    NotContainsMissingChar(NoChoicesError, StatusMarker, 0);
    NotContainsMissingChar(NoChoicesError, DecodeMarker, 0);
  }

  /** The decision for every kind of failed attempt. */
  lemma RetryDecision(outcome: HttpOutcome)
    requires Attempt(outcome).Err?
    ensures var retry := ShouldRetry(Attempt(outcome).error);
      match outcome
      case RequestRejected(cause) => retry == ShouldRetry(cause)
      case TransportFailed(_) => retry
      case Answered(status, body, decoded) =>
        if status != StatusOK then
          retry <==> IntToDecimal(status)[0] == '5'
                     || Contains(body, NetworkMarker) || Contains(body, ServerErrorMarker)
        else if decoded.DecodeFailed? then
          retry <==> Contains(decoded.cause, NetworkMarker) || !Contains(decoded.cause, StatusMarker)
                     || Contains(decoded.cause, ServerErrorMarker)
        else !retry
  {
    match outcome
    case RequestRejected(cause) => CreateFailureRetry(cause);
    case TransportFailed(cause) => TransportFailureRetried(cause);
    case Answered(status, body, decoded) =>
      if status != StatusOK {
        StatusFailureRetry(status, body);
      } else if decoded.DecodeFailed? {
        DecodeFailureRetry(decoded.cause);
      } else {
        NoChoicesNotRetried();
      }
  }

  // ---------------------------------------------------------------------
  // The retry loop (executeWithRetry)
  // ---------------------------------------------------------------------

  /** What one retry sequence produced: the final answer, how many attempts
      were sent and the sleeps (in seconds) taken between them. */
  datatype Run = Run(result: Result<ChatCompletionResponse, string>, attempts: nat, sleeps: seq<nat>)

  /** The error returned when no attempt succeeded; it always cites
      MaxRetries, however many attempts were made. */
  function FinalError(name: string, lastErr: string): string {
    "request to " + name + " failed after " + IntToDecimal(MaxRetries) + " attempts: " + lastErr
  }

  /** What each attempt would produce, in order. */
  function Attempts(outcomes: seq<HttpOutcome>): (rs: seq<Result<ChatCompletionResponse, string>>)
    ensures |rs| == |outcomes|
    ensures forall k :: 0 <= k < |outcomes| ==> rs[k] == Attempt(outcomes[k])
  {
    seq(|outcomes|, k requires 0 <= k < |outcomes| => Attempt(outcomes[k]))
  }

  /** The retry sequence from attempt `attempt` on, as a recursion over the
      attempts still allowed. */
  function RetryFrom(name: string, results: seq<Result<ChatCompletionResponse, string>>, attempt: nat): Run
    requires attempt < MaxRetries <= |results|
    decreases MaxRetries - attempt
  {
    match results[attempt]
    case Ok(response) => Run(Ok(response), attempt + 1, [])
    case Err(e) =>
      if attempt == MaxRetries - 1 || !ShouldRetry(e) then
        Run(Err(FinalError(name, e)), attempt + 1, [])
      else
        var rest := RetryFrom(name, results, attempt + 1);
        Run(rest.result, rest.attempts, [Backoff(attempt)] + rest.sleeps)
  }

  /** What a retry sequence promises: it ends at attempt `attempts - 1`;
      every attempt before that failed with a retryable error and was
      followed by a sleep of 2^k seconds; a success is returned as the
      attempt produced it; a failure wraps the last attempt's error and
      happened on the last allowed attempt or was not retryable. */
  lemma {:induction false} RetryFromSpec(name: string, results: seq<Result<ChatCompletionResponse, string>>, attempt: nat)
    requires attempt < MaxRetries <= |results|
    ensures var run := RetryFrom(name, results, attempt);
      && attempt < run.attempts <= MaxRetries
      && |run.sleeps| == run.attempts - 1 - attempt
      && (forall k :: 0 <= k < |run.sleeps| ==> run.sleeps[k] == Backoff(attempt + k))
      && (forall k :: attempt <= k < run.attempts - 1 ==>
            results[k].Err? && ShouldRetry(results[k].error))
      && (run.result.Ok? ==> run.result == results[run.attempts - 1])
      && (run.result.Err? ==>
            var last := results[run.attempts - 1];
            && last.Err?
            && run.result.error == FinalError(name, last.error)
            && (run.attempts == MaxRetries || !ShouldRetry(last.error)))
    decreases MaxRetries - attempt
  {
    var r := results[attempt];
    if r.Err? && attempt != MaxRetries - 1 && ShouldRetry(r.error) {
      RetryFromSpec(name, results, attempt + 1);
    }
  }

  function Sum(xs: seq<nat>): nat {
    if xs == [] then 0 else xs[0] + Sum(xs[1..])
  }

  /** The sleeps of a whole sequence are 1s then 2s, cut short by an early
      stop: 2^(attempts-1) - 1 seconds in all, never more than 3. */
  lemma RetrySleepTotal(name: string, results: seq<Result<ChatCompletionResponse, string>>)
    requires MaxRetries <= |results|
    ensures var run := RetryFrom(name, results, 0);
      Sum(run.sleeps) == Pow2(run.attempts - 1) - 1 <= 3
  {
    var run := RetryFrom(name, results, 0);
    RetryFromSpec(name, results, 0);
    if |run.sleeps| == 2 {
      assert run.sleeps == [1, 2];
      assert Sum(run.sleeps) == 1 + Sum([2]);
    } else if |run.sleeps| == 1 {
      assert run.sleeps == [1];
    }
  }

  /** The final error says "failed after 3 attempts" even when the loop
      stopped after fewer. */
  lemma FinalErrorCitesMaxRetries(name: string, lastErr: string)
    ensures Contains(FinalError(name, lastErr), "failed after 3 attempts")
  {
    assert IntToDecimal(MaxRetries) == "3";
    assert FinalError(name, lastErr)
        == ("request to " + name + " ") + "failed after 3 attempts" + (": " + lastErr);
    ContainsInfix("request to " + name + " ", "failed after 3 attempts", ": " + lastErr);
  }

  /** Two server errors then a good answer: success on the third attempt
      after sleeping 1s and 2s. */
  lemma ServerErrorsThenSuccess(name: string, body: string, response: ChatCompletionResponse)
    requires |response.choices| > 0
    ensures RetryFrom(name, Attempts([Answered(500, body, DecodeFailed("")), Answered(503, body, DecodeFailed("")),
                                      Answered(200, "", Decoded(response))]), 0)
            == Run(Ok(response), 3, [1, 2])
  {
    ThreeDigitStatusRetry(500, body);
    ThreeDigitStatusRetry(503, body);
  }

  /** A 404 whose body mentions no retry marker ends after one attempt,
      without sleeping. */
  lemma NotFoundStopsAtOnce(name: string, body: string, later: seq<HttpOutcome>)
    requires |later| >= 2
    requires !Contains(body, NetworkMarker) && !Contains(body, ServerErrorMarker)
    ensures RetryFrom(name, Attempts([Answered(404, body, DecodeFailed(""))] + later), 0)
            == Run(Err(FinalError(name, StatusError(404, body))), 1, [])
  {
    ThreeDigitStatusRetry(404, body);
  }

  /** An answer with zero choices ends after one attempt, without sleeping. */
  lemma EmptyChoicesStopsAtOnce(name: string, later: seq<HttpOutcome>)
    requires |later| >= 2
    ensures RetryFrom(name, Attempts([Answered(200, "", Decoded(ChatCompletionResponse([])))] + later), 0)
            == Run(Err(FinalError(name, NoChoicesError)), 1, [])
  {
    NoChoicesNotRetried();
  }

  /** `run` preceded by sleeps already taken. */
  function AfterSleeps(sleeps: seq<nat>, run: Run): Run {
    Run(run.result, run.attempts, sleeps + run.sleeps)
  }

  /** One step of the retry sequence, as the loop takes it. */
  lemma RetryStep(name: string, results: seq<Result<ChatCompletionResponse, string>>, attempt: nat, sleeps: seq<nat>)
    requires attempt < MaxRetries <= |results|
    ensures var r := results[attempt];
      && (r.Ok? ==> AfterSleeps(sleeps, RetryFrom(name, results, attempt)) == Run(r, attempt + 1, sleeps))
      && (r.Err? && (attempt == MaxRetries - 1 || !ShouldRetry(r.error)) ==>
            AfterSleeps(sleeps, RetryFrom(name, results, attempt))
            == Run(Err(FinalError(name, r.error)), attempt + 1, sleeps))
      && (r.Err? && attempt < MaxRetries - 1 && ShouldRetry(r.error) ==>
            AfterSleeps(sleeps, RetryFrom(name, results, attempt))
            == AfterSleeps(sleeps + [Backoff(attempt)], RetryFrom(name, results, attempt + 1)))
  {
    var r := results[attempt];
    if r.Ok? {
      assert sleeps + [] == sleeps;
    } else if attempt == MaxRetries - 1 || !ShouldRetry(r.error) {
      assert sleeps + [] == sleeps;
    } else {
      var rest := RetryFrom(name, results, attempt + 1);
      assert sleeps + ([Backoff(attempt)] + rest.sleeps) == (sleeps + [Backoff(attempt)]) + rest.sleeps;
    }
  }

  /** executeWithRetry: sends the same request once per attempt, consuming
      one oracle outcome per attempt, and records every request handed to
      the transport (an attempt whose request could not be built sends none). */
  method ExecuteWithRetry(provider: Provider, body: ChatCompletionRequest, outcomes: seq<HttpOutcome>)
    returns (run: Run, sent: seq<HttpRequest>)
    requires MaxRetries <= |outcomes|
    ensures run == RetryFrom(provider.name, Attempts(outcomes), 0)
    ensures run.attempts <= MaxRetries
    ensures sent == Copies(PostRequest(provider, body), SentCount(outcomes, run.attempts))
  {
    var name := provider.name;
    ghost var results := Attempts(outcomes);
    var lastErr := "";
    var sleeps: seq<nat> := [];
    sent := [];
    var request := PostRequest(provider, body);  // rebuilt identically on every attempt
    var attempt: nat := 0;
    while attempt < MaxRetries
      invariant attempt < MaxRetries
      invariant sent == Copies(request, SentCount(outcomes, attempt))
      invariant RetryFrom(name, results, 0) == AfterSleeps(sleeps, RetryFrom(name, results, attempt))
      decreases MaxRetries - attempt
    {
      CopiesHanded(outcomes, attempt, request);
      sent := sent + Handed(outcomes[attempt], request);  // client.Do
      var r := Attempt(outcomes[attempt]);
      assert r == results[attempt];
      RetryStep(name, results, attempt, sleeps);
      if r.Ok? {
        return Run(r, attempt + 1, sleeps), sent;
      }
      lastErr := r.error;
      if attempt == MaxRetries - 1 {
        break;
      }
      if !ShouldRetry(lastErr) {
        break;
      }
      sleeps := sleeps + [Backoff(attempt)];  // time.Sleep
      attempt := attempt + 1;
    }
    run := Run(Err(FinalError(name, lastErr)), attempt + 1, sleeps);
  }

  // ---------------------------------------------------------------------
  // Single-provider entry points (executeProvider, ExecuteOne)
  // ---------------------------------------------------------------------

  /** The configured providers of a Command (its client and logger are not modelled). */
  datatype Command = Command(providers: seq<Provider>)

  const MarshalFailedPrefix := "failed to marshal request: "
  const NoProvidersError := "no providers configured"

  /** The request actually sent: the caller's, with the provider's model. */
  function WithModel(req: ChatCompletionRequest, provider: Provider): (body: ChatCompletionRequest)
    ensures body.model == provider.model
    ensures body.(model := req.model) == req
  {
    req.(model := provider.model)
  }

  /** executeProvider: overwrite the model on a copy of the request, encode
      it (`marshal` is the encoder's failure, if any) and run the retry loop. */
  method ExecuteProvider(provider: Provider, req: ChatCompletionRequest, marshal: Option<string>,
                         outcomes: seq<HttpOutcome>)
    returns (run: Run, sent: seq<HttpRequest>)
    requires MaxRetries <= |outcomes|
    ensures marshal.Some? ==> run == Run(Err(MarshalFailedPrefix + marshal.value), 0, []) && sent == []
    ensures marshal.None? ==> run == RetryFrom(provider.name, Attempts(outcomes), 0)
    ensures run.attempts <= MaxRetries
    ensures sent == Copies(PostRequest(provider, WithModel(req, provider)), SentCount(outcomes, run.attempts))
  {
    var body := WithModel(req, provider);
    if marshal.Some? {
      return Run(Err(MarshalFailedPrefix + marshal.value), 0, []), [];
    }
    run, sent := ExecuteWithRetry(provider, body, outcomes);
  }

  /** ExecuteOne: the first configured provider only; an empty list is an error. */
  method ExecuteOne(command: Command, req: ChatCompletionRequest, marshal: Option<string>,
                    outcomes: seq<HttpOutcome>)
    returns (run: Run, sent: seq<HttpRequest>)
    requires MaxRetries <= |outcomes|
    ensures command.providers == [] ==> run == Run(Err(NoProvidersError), 0, []) && sent == []
    ensures command.providers != [] && marshal.None? ==>
              run == RetryFrom(command.providers[0].name, Attempts(outcomes), 0)
    ensures command.providers != [] && marshal.Some? ==>
              run == Run(Err(MarshalFailedPrefix + marshal.value), 0, [])
    ensures run.attempts <= MaxRetries
    ensures command.providers != [] ==>
              sent == Copies(PostRequest(command.providers[0], WithModel(req, command.providers[0])),
                             SentCount(outcomes, run.attempts))
  {
    if |command.providers| == 0 {
      return Run(Err(NoProvidersError), 0, []), [];
    }
    run, sent := ExecuteProvider(command.providers[0], req, marshal, outcomes);
  }
}
