/** The record shapes of types.go that the dispatch core touches, the
    outbound HTTP request, and the answer of one HTTP round trip, which
    the model takes from an oracle instead of a network. */
module Types {
  import opened GoStrings

  /** A Go `(value, error)` pair where exactly one side is meaningful. */
  datatype Result<+T, +E> = Ok(value: T) | Err(error: E)

  datatype ToolCallFunction = ToolCallFunction(name: string, arguments: string)

  datatype ToolCall = ToolCall(id: string, kind: string, call: ToolCallFunction)

  datatype ChatCompletionMessage = ChatCompletionMessage(
    role: string,
    content: string,
    toolCalls: seq<ToolCall>,
    toolCallId: string)

  datatype ChatCompletionChoice = ChatCompletionChoice(message: ChatCompletionMessage, finishReason: string)

  datatype ChatCompletionResponse = ChatCompletionResponse(choices: seq<ChatCompletionChoice>)

  datatype ToolFunc = ToolFunc(name: string, description: string)

  datatype Tool = Tool(kind: string, fn: ToolFunc)

  /** The request body; `temperature` and `tool_choice` are not modelled. */
  datatype ChatCompletionRequest = ChatCompletionRequest(
    model: string,
    messages: seq<ChatCompletionMessage>,
    maxTokens: int,
    tools: seq<Tool>)

  /** One configured endpoint: display name, URL, credential and model. */
  datatype Provider = Provider(name: string, endpoint: string, apiKey: string, model: string)

  /** An HTTP request as handed to the transport; the body is the request
      value itself (its JSON encoding is not modelled). */
  datatype HttpRequest = HttpRequest(
    verb: string,
    url: string,
    header: map<string, string>,
    body: ChatCompletionRequest)

  /** What decoding a 200 response body into the response schema gave. */
  datatype Decoded = Decoded(response: ChatCompletionResponse) | DecodeFailed(cause: string)

  /** The outcome of one send: the request could not be built, the
      transport failed, or a status line and body arrived (together with
      what decoding that body would give). */
  datatype HttpOutcome =
    | RequestRejected(cause: string)
    | TransportFailed(cause: string)
    | Answered(status: int, body: string, decoded: Decoded)

  /** How many of the first `n` round trips handed a request to the
      transport: all but those whose request could not be built. */
  function SentCount(outcomes: seq<HttpOutcome>, n: nat): nat
    requires n <= |outcomes|
  {
    if n == 0 then 0
    else SentCount(outcomes, n - 1) + (if outcomes[n - 1].RequestRejected? then 0 else 1)
  }

  /** At most one request per round trip; one for each exactly when every
      request could be built, and none exactly when none could. */
  lemma {:induction false} SentCountBounds(outcomes: seq<HttpOutcome>, n: nat)
    requires n <= |outcomes|
    ensures SentCount(outcomes, n) <= n
    ensures SentCount(outcomes, n) == n <==> forall k :: 0 <= k < n ==> !outcomes[k].RequestRejected?
    ensures SentCount(outcomes, n) == 0 <==> forall k :: 0 <= k < n ==> outcomes[k].RequestRejected?
  {
    if n > 0 {
      SentCountBounds(outcomes, n - 1);
    }
  }

  /** `n` copies of the same request. */
  function Copies(request: HttpRequest, n: nat): (r: seq<HttpRequest>)
    ensures |r| == n
    ensures forall k :: 0 <= k < n ==> r[k] == request
  {
    seq(n, _ => request)
  }

  /** Handing the next attempt's request to the transport keeps the log
      equal to one copy per attempt that got that far. */
  lemma CopiesHanded(outcomes: seq<HttpOutcome>, n: nat, request: HttpRequest)
    requires n < |outcomes|
    ensures Copies(request, SentCount(outcomes, n)) + Handed(outcomes[n], request)
            == Copies(request, SentCount(outcomes, n + 1))
  {
  }

  /** What one attempt hands to the transport: its request, unless the
      request could not be built. */
  function Handed(outcome: HttpOutcome, request: HttpRequest): (r: seq<HttpRequest>)
    ensures |r| == (if outcome.RequestRejected? then 0 else 1)
    ensures forall k :: 0 <= k < |r| ==> r[k] == request
  {
    if outcome.RequestRejected? then [] else [request]
  }

  const StatusOK: int := 200

  const BearerPrefix := "Bearer "

  /** 1 << k */
  function Pow2(k: nat): (r: nat)
    ensures r >= 1
  {
    if k == 0 then 1 else 2 * Pow2(k - 1)
  }

  /** The POST request every attempt sends: JSON content type and the
      provider's credential as a bearer token. */
  function PostRequest(provider: Provider, body: ChatCompletionRequest): (r: HttpRequest)
    ensures r.verb == "POST" && r.url == provider.endpoint && r.body == body
    ensures r.header.Keys == {"Content-Type", "Authorization"}
    ensures r.header["Content-Type"] == "application/json"
  {
    HttpRequest("POST", provider.endpoint,
      map["Content-Type" := "application/json", "Authorization" := BearerPrefix + provider.apiKey],
      body)
  }

  /** The credential a server reads back from a bearer Authorization header. */
  function BearerToken(header: map<string, string>): Option<string> {
    if "Authorization" in header && |BearerPrefix| <= |header["Authorization"]|
       && header["Authorization"][..|BearerPrefix|] == BearerPrefix
    then Some(header["Authorization"][|BearerPrefix|..])
    else None
  }

  /** The server recovers exactly the provider's credential from every request. */
  lemma PostRequestCarriesKey(provider: Provider, body: ChatCompletionRequest)
    ensures BearerToken(PostRequest(provider, body).header) == Some(provider.apiKey)
  {
    var auth := PostRequest(provider, body).header["Authorization"];
    assert auth == BearerPrefix + provider.apiKey;
    assert auth[..|BearerPrefix|] == BearerPrefix;
    assert auth[|BearerPrefix|..] == provider.apiKey;
  }
}
