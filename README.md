# general — retrying chat-completion dispatch, modelled in Dafny

`general` is a Go library and command-line tool. It sends one
OpenAI-style chat-completion request to several LLM providers (OpenRouter,
Groq, Chutes, Gemini). This project models the part of it that decides
what happens to a single request, and proves properties of that model:

* **Execute** (`execute.go`) is the `Command` retry controller. Each attempt
  builds a POST with a bearer token and sends it. The outcome becomes a
  response or an error text. `shouldRetry` classifies that error text by
  substring search. Retryable failures are followed by sleeps of 1 s and
  then 2 s. After at most three attempts the last error is wrapped as
  "request to N failed after 3 attempts: …".
* **Complete** (`complete.go`) is the `Client` retry controller. It works
  the same way, except that each wait can be cut short by the request
  context (`waitForRetry`). The bare context error is then returned.
* **Cli** (`cmd/general/main.go`) is the command-line front end:
  * the repeatable `-t provider:model` flag (`targetFlag`);
  * the target-parsing loop, which uses case-insensitive provider names, the
    constructor and environment-variable registries, and refuses missing keys;
  * prompt assembly from the arguments or from standard input, and the
    empty-prompt check;
  * the user message sent;
  * `providerNameFromEndpoint`.
* **Providers** (`providers.go`) holds the four endpoint URLs and their
  constructors.
* **Types** holds the records of `types.go` that the above touch, and the
  request every attempt sends.
* **GoStrings** holds the pieces of Go's `strings`/`strconv` that the code
  depends on: `Contains`, `ToLower`, `SplitN(_, _, 2)`, `Join`, `TrimSpace`,
  and `%d`.

Modelling choices:

* **Errors are modelled as the text `Error()` returns.** `fmt.Errorf("…: %w", err)`
  becomes prefix concatenation. As a result, `shouldRetry` is modelled exactly:
  an ordered chain of `strings.Contains` tests.
* **Each HTTP round trip comes from an oracle.** An `HttpOutcome` per attempt
  gives one of three things:
  * the request could not be built;
  * the transport failed;
  * a status, a body, and what decoding that body yields.
* **Context cancellation is also an oracle**, with one flag per wait.
* **A retry run is described by a recursive specification function**,
  `RetryFrom`. Each `executeWithRetry` loop is a method proved equal to it.
  It is proved to return the same result and attempt count. It hands the
  same POST to the transport once per attempt whose request could be built.
* **Sleeps and waits are returned as a sequence of delays in seconds.**

Consequences of the Go code that the model makes explicit:

* A non-200 answer is retried exactly when any of these holds:
  * its code's first digit is `5`;
  * its body mentions "HTTP request failed";
  * its body mentions "status 5".

  So a 404 whose body says "status 5…" is retried (`Execute.StatusFailureRetry`).
* The wrapped error always says "failed after 3 attempts". This holds even
  when the run stopped after one attempt on a non-retryable error
  (`Execute.NotFoundStopsAtOnce`).
* Without cancellations, the two controllers behave identically
  (`Complete.UncancelledAgreesOnOutcomes`).

## Model

| member | source | states |
|---|---|---|
| Types.PostRequest | execute.go:135-142 | every attempt is a POST to the provider's endpoint with the JSON content type, the marshalled body, and exactly two headers |
| Types.PostRequestCarriesKey | execute.go:142 | reading the bearer Authorization header back yields exactly the provider's API key |
| Types.SentCountBounds | execute.go:136-144 | at most one request reaches the transport per attempt; one for every attempt exactly when every request could be built, and none exactly when none could |
| Providers.OpenRouter | providers.go:11-14 | the provider points at the OpenRouter URL with the given key; name and model are left empty |
| Providers.Groq | providers.go:16-19 | the provider points at the Groq URL with the given key; name and model are left empty |
| Providers.Chutes | providers.go:21-24 | the provider points at the Chutes URL with the given key; name and model are left empty |
| Providers.Gemini | providers.go:26-29 | the provider points at the Gemini URL with the given key; name and model are left empty |
| Providers.EndpointsDistinct | providers.go:4-9 | the four endpoint URLs are pairwise different |
| Execute.Attempt | execute.go:135-173 | an attempt succeeds exactly when a 200 decodes into at least one choice, and then yields that response; a non-200 yields "API request failed with status <code>: <body>" |
| Execute.CreateFailureRetry | execute.go:136-139 | a request-construction error is retried exactly when its wrapped cause would be |
| Execute.TransportFailureRetried | execute.go:144-147 | every transport failure is retried |
| Execute.StatusHasMarker | execute.go:150-156 | every non-200 error carries the "API request failed with status" marker |
| Execute.StatusNetworkFromBody | execute.go:155 | a non-200 error mentions "HTTP request failed" exactly when its body does |
| Execute.StatusServerError | execute.go:155 | a non-200 error contains "status 5" exactly when the code's first digit is 5 or the body contains it |
| Execute.StatusFailureRetry | execute.go:175-194 | a non-200 error is retried exactly when the code starts with 5 or the body holds the network or the server-error marker |
| Execute.ThreeDigitStatusRetry | execute.go:182-187 | every 5xx is retried; any other three-digit code is retried only when its body holds one of those markers |
| Execute.DecodePrefixMarkers | execute.go:159-161 | a decode error always carries the decode marker; the network and status markers appear in it only through the cause |
| Execute.DecodePrefixNoServerError | execute.go:159-161 | "status 5" appears in a decode error only through the cause |
| Execute.DecodeFailureRetry | execute.go:175-194 | a decode failure is retried unless its cause mentions the status marker without either the network marker or "status 5" |
| Execute.NoChoicesNotRetried | execute.go:163-165 | an empty choice list is never retried |
| Execute.RetryDecision | execute.go:175-194 | gives the retry decision for each kind of failed outcome: construction, transport, non-200, undecodable 200, empty choices |
| Execute.Attempts | execute.go:108-109 | one classified result per round trip, in order |
| Execute.RetryFromSpec | execute.go:105-133 | a run makes 1 to 3 attempts and sleeps 2^k seconds after the k-th; every attempt but the last failed retryably; success returns the last response; failure wraps the last error and happened at attempt 3 or on a non-retryable error |
| Execute.RetrySleepTotal | execute.go:129 | a run of n attempts sleeps 2^(n-1) - 1 seconds in all, never more than 3 |
| Execute.FinalErrorCitesMaxRetries | execute.go:132 | the exhausted-retries error always says "failed after 3 attempts" |
| Execute.ServerErrorsThenSuccess | execute.go:105-133 | 500, 503, then a good 200 gives the response after three attempts and sleeps of 1 s and 2 s |
| Execute.NotFoundStopsAtOnce | execute.go:121-127 | a 404 whose body holds no marker stops after one attempt with no sleep |
| Execute.EmptyChoicesStopsAtOnce | execute.go:163-165 | a 200 with no choices stops after one attempt with no sleep |
| Execute.RetryStep | execute.go:108-130 | one loop iteration either returns, gives up with the wrapped error, or sleeps 2^attempt seconds and goes on to the next attempt |
| Execute.ExecuteWithRetry | execute.go:105-133 | the loop's result, attempt count and sleeps are those of the retry specification; the requests it hands to the transport are copies of the same POST, one per attempt whose request could be built |
| Execute.WithModel | execute.go:60 | the body sent carries the provider's model and is otherwise the caller's request |
| Execute.ExecuteProvider | execute.go:58-74 | a marshal failure is returned wrapped without sending anything; otherwise the retry run happens, and every request sent carries the provider's model in the body |
| Execute.ExecuteOne | execute.go:49-56 | no providers gives "no providers configured" without sending; otherwise the first provider is used, and only it is sent to |
| Complete.Attempt | complete.go:72-110 | gives the same success condition and response as execute.go's attempt |
| Complete.ClassificationAgrees | complete.go:112-134 | complete.go classifies every outcome and every error text exactly as execute.go does |
| Complete.RetryDecision | complete.go:112-134 | gives the retry decision for each kind of failed outcome, as in execute.go |
| Complete.WaitForRetry | complete.go:136-145 | waits 2^attempt seconds; returns the context's error exactly when the context is done first |
| Complete.Attempts | complete.go:43-44 | one classified result per round trip, in order |
| Complete.RetryFromCount | complete.go:40-70 | makes 1 to 3 attempts, with one wait per attempt but the last, or one per attempt when the last wait was cancelled |
| Complete.RetryFromWaits | complete.go:136-137 | the k-th wait begun lasts 2^k seconds |
| Complete.RetryFromEarlier | complete.go:43-67 | every attempt before the last failed retryably, and the wait after it was not cancelled |
| Complete.RetryFromEnd | complete.go:40-70 | covers how a run ends: a success returns the last response; a cancelled wait follows a retryable failure before attempt 3 and returns the bare context error; any other failure wraps the last error, at attempt 3 or on a non-retryable error |
| Complete.CancellationNotWrapped | complete.go:64-69 | a cancellation error never reads like an exhausted-retries error |
| Complete.UncancelledMatchesExecute | complete.go:40-70 | with no wait cancelled, a run has the same result, attempts and delays as execute.go's |
| Complete.UncancelledAgreesOnOutcomes | complete.go:40-70 | with no wait cancelled, the two controllers agree on the same round trips |
| Complete.CancelledDuringFirstWait | complete.go:60-66 | a 500 whose first wait is cancelled ends after one attempt with the context error |
| Complete.StepSucceeds | complete.go:44-47 | a successful attempt ends the run with its response |
| Complete.StepGivesUp | complete.go:56-62 | a failure at attempt 3, or a non-retryable one, ends the run with the wrapped error |
| Complete.StepCancelled | complete.go:64-66 | a cancelled wait ends the run with the context error after that wait began |
| Complete.StepWaits | complete.go:64-67 | a full wait of 2^attempt seconds leads to the next attempt |
| Complete.ExecuteWithRetry | complete.go:40-70 | the loop's result, attempts and waits are those of the retry specification; the requests it hands to the transport are copies of the same POST, one per attempt whose request could be built |
| Complete.Complete | complete.go:22-38 | a marshal failure is returned wrapped without sending anything; otherwise the retry run happens, and every request sent carries the provider's model in the body |
| Cli.TargetFlag.constructor | cmd/general/main.go:40 | the flag starts with no targets |
| Cli.TargetFlag.String | cmd/general/main.go:16-18 | the display form holds every target in order, each but the last followed by ", ", and nothing else; it is empty when there are no targets |
| Cli.TargetFlag.Set | cmd/general/main.go:20-23 | appends the value to the targets and never fails |
| Cli.CollectTargets | cmd/general/main.go:40-43 | after every `-t` occurrence has been set, the flag holds exactly those values, in order |
| Cli.RegistriesAgree | cmd/general/main.go:25-37 | the constructor and environment-variable registries know exactly openrouter, groq, chutes and gemini |
| Cli.Getenv | cmd/general/main.go:73 | an unset variable reads as empty |
| Cli.ProviderNameUpToCase | cmd/general/main.go:62-70 | a provider part is accepted exactly when it spells a registered name with any of its letters in upper case ("Groq", "OPENROUTER") |
| Cli.ParseTargetNoColon | cmd/general/main.go:56-60 | a target without ':' is rejected as malformed |
| Cli.ParseTargetCases | cmd/general/main.go:62-83 | covers how a target resolves: an unknown lower-cased name, a missing or empty key, or the constructed provider with the model after the first ':' |
| Cli.ParseTargetCaseInsensitive | cmd/general/main.go:62-65 | provider names that differ only in ASCII case parse alike |
| Cli.ParseTargetRoundTrip | cmd/general/main.go:53-84 | a parsed target's endpoint names back its provider, its key is the non-empty environment value, and its model is the text after ':' |
| Cli.ParseTargets | cmd/general/main.go:45-84 | no targets is an error; otherwise it succeeds exactly when every target parses, giving the targets in order, and else reports the first bad target's error |
| Cli.ReadPrompt | cmd/general/main.go:86-98 | the prompt is the arguments joined by spaces, or else the input lines joined by newlines |
| Cli.CheckPrompt | cmd/general/main.go:100-103 | a prompt is refused exactly when it is all white space |
| Cli.PromptRefusedIffBlank | cmd/general/main.go:86-103 | the prompt is refused exactly when every argument, or every input line when there are no arguments, is blank |
| Cli.UserRequest | cmd/general/main.go:107-111 | the request holds one user message with the prompt as its content |
| Cli.Prepare | cmd/general/main.go:45-111 | the front end succeeds exactly when there are targets, all parse, and the prompt is not blank, and checks in that order |
| Cli.ProviderNameFromEndpoint | cmd/general/main.go:151-164 | names a provider whose mark occurs in the URL, or "unknown" exactly when none does; each name is chosen exactly when its mark occurs and no mark tested before it (openrouter, groq, chutes, then gemini) does |
| Cli.OpenRouterEndpointName | cmd/general/main.go:153-154 | the OpenRouter URL is named "openrouter" |
| Cli.GroqEndpointName | cmd/general/main.go:155-156 | the Groq URL is named "groq" |
| Cli.ChutesEndpointName | cmd/general/main.go:157-158 | the Chutes URL is named "chutes" |
| Cli.GeminiEndpointNoPair | cmd/general/main.go:153-158 | the Gemini URL contains neither "ro" nor "ut" |
| Cli.GeminiEndpointNoOpenRouter | cmd/general/main.go:153-154 | the Gemini URL does not contain "openrouter", so the first case of the switch does not match it |
| Cli.GeminiEndpointNoGroq | cmd/general/main.go:155-156 | the Gemini URL does not contain "groq", so the second case does not match it |
| Cli.GeminiEndpointNoChutes | cmd/general/main.go:157-158 | the Gemini URL does not contain "chutes", so the third case does not match it |
| Cli.GeminiEndpointName | cmd/general/main.go:159-160 | the Gemini URL is named "gemini" |
| Cli.NameOfConstructedEndpoint | cmd/general/main.go:25-30 | the endpoint of the provider built for any registered name is named back as that name |
| GoStrings.ToLowerSpec | cmd/general/main.go:62 | lower-casing turns each upper-case ASCII letter into its lower-case letter (32 code points up), changes nothing else, and is idempotent |
| GoStrings.ToLowerMatches | cmd/general/main.go:62 | lower-casing gives a given lower-case text exactly for the texts that spell it with any letters in upper case |
| GoStrings.IndexOfChar | cmd/general/main.go:56 | finds the first occurrence of the separator, or reports that there is none |
| GoStrings.SplitFirstSpec | cmd/general/main.go:56-57 | splitting fails exactly without a ':', and otherwise the head has no ':' and the parts rejoin to the input |
| GoStrings.SplitFirstJoin | cmd/general/main.go:56 | splitting "head:tail" with a colon-free head gives back head and tail |
| GoStrings.JoinLayout | cmd/general/main.go:17 | a join of at least one part holds the parts in order, each but the last followed by the separator, and nothing else |
| GoStrings.TrimSpaceEmpty | cmd/general/main.go:100 | TrimSpace yields "" exactly for all-white-space text |
| GoStrings.JoinAllSpace | cmd/general/main.go:89-97 | a join with a blank separator is blank exactly when every part is |
| GoStrings.DecimalRoundTrip | execute.go:155 | reading back the decimal rendering of a status code gives the code |
| GoStrings.ThreeDigitLead | execute.go:155 | a three-digit code is printed with its hundreds digit first |

## Left out

- Concurrency: `Command.Execute`, `Broadcast` and `executeAndSend` fan requests out to goroutines and a channel. Each provider's run is modelled on its own.
- The HTTP transport, status and body reading, JSON encoding and decoding: these are the `HttpOutcome` oracle, and the marshal result is a parameter.
- Logging through `slog`, and timing the calls.
- `time.Duration`: delays are whole seconds.
- The `Client` constructors in client.go.
- Context cancellation is one oracle flag per wait. The model does not capture a context that ends during a round trip.
- `ChatCompletionRequest.Temperature`, `ToolChoice`, and the tool-parameter schema: they are not modelled, because no decision in the core reads them.
- The rest of main.go: `os.Exit` and error texts printed to standard error, flag registration, reading standard input, and printing results. `CliError` carries the data of each message (target, provider name, variable name) rather than its `%q`-quoted text.
- The declaration of `general.Target` is not among the library files modelled; the `Target{Provider, Model}` value main.go builds is modelled as `Cli.Target`.
- `general.NewCommand` and the `Result.Target` field that main.go uses are not part of this model.
- Requests handed to the transport are logged as values; the network call itself, and a request body read by the server, are not modelled.
- GoStrings.ToLower: only ASCII letters are folded; Go folds all Unicode letters.
- Strings are sequences of code points, not UTF-8 bytes. This is the same for the ASCII texts involved.
