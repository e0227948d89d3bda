/** The `Client` retry controller of complete.go. It is execute.go's
    controller with two differences: the answer is returned by reference (nil on
    error) and the wait between attempts ends early, with the context's
    error, when the context is done first. */
module Complete {
  import opened GoStrings
  import opened Types
  import Execute

  const MaxRetries: nat := 3
  /** time.Second, counted in seconds. */
  const BaseDelay: nat := 1

  // ---------------------------------------------------------------------
  // One attempt and the retry decision (this file's own copies)
  // ---------------------------------------------------------------------

  /** executeSingleRequest: a 200 that decodes into at least one choice is
      the (non-nil) response; anything else is an error text. */
  function Attempt(outcome: HttpOutcome): (r: Result<ChatCompletionResponse, string>)
    ensures r.Ok? <==> outcome.Answered? && outcome.status == StatusOK
                       && outcome.decoded.Decoded? && |outcome.decoded.response.choices| > 0
    ensures r.Ok? ==> r.value == outcome.decoded.response && |r.value.choices| >= 1
  {
    match outcome
    case RequestRejected(cause) => Err(Execute.CreateFailedPrefix + cause)
    case TransportFailed(cause) => Err(Execute.TransportFailedPrefix + cause)
    case Answered(status, body, decoded) =>
      if status != StatusOK then Err(Execute.StatusError(status, body))
      else
        match decoded
        case DecodeFailed(cause) => Err(Execute.DecodeFailedPrefix + cause)
        case Decoded(response) =>
          if |response.choices| == 0 then Err(Execute.NoChoicesError) else Ok(response)
  }

  /** shouldRetry: the same ordered substring tests as execute.go's. */
  function ShouldRetry(errStr: string): bool {
    if Contains(errStr, Execute.NetworkMarker) then true
    else if Contains(errStr, Execute.StatusMarker) then Contains(errStr, Execute.ServerErrorMarker)
    else Contains(errStr, Execute.DecodeMarker)
  }

  /** The two files classify every outcome and every error text alike. */
  lemma ClassificationAgrees(outcome: HttpOutcome, errStr: string)
    ensures Attempt(outcome) == Execute.Attempt(outcome)
    ensures ShouldRetry(errStr) == Execute.ShouldRetry(errStr)
  {
  }

  /** The decision table of complete.go, obtained from execute.go's. */
  lemma RetryDecision(outcome: HttpOutcome)
    requires Attempt(outcome).Err?
    ensures var retry := ShouldRetry(Attempt(outcome).error);
      match outcome
      case RequestRejected(cause) => retry == ShouldRetry(cause)
      case TransportFailed(_) => retry
      case Answered(status, body, decoded) =>
        if status != StatusOK then
          retry <==> IntToDecimal(status)[0] == '5'
                     || Contains(body, Execute.NetworkMarker) || Contains(body, Execute.ServerErrorMarker)
        else if decoded.DecodeFailed? then
          retry <==> Contains(decoded.cause, Execute.NetworkMarker)
                     || !Contains(decoded.cause, Execute.StatusMarker)
                     || Contains(decoded.cause, Execute.ServerErrorMarker)
        else !retry
  {
    Execute.RetryDecision(outcome);
  }

  // ---------------------------------------------------------------------
  // The cancellable wait (waitForRetry)
  // ---------------------------------------------------------------------

  /** The error a done context reports. */
  datatype ContextError = Canceled | DeadlineExceeded {
    function Text(): string {
      match this
      case Canceled => "context canceled"
      case DeadlineExceeded => "context deadline exceeded"
    }
  }

  /** The delay before attempt `attempt + 1`: 2^attempt seconds. */
  function WaitDelay(attempt: nat): nat {
    Pow2(attempt) * BaseDelay
  }

  /** waitForRetry: waits 2^attempt seconds unless the context is done
      first (`cancelled`), in which case it returns the context's error. */
  method WaitForRetry(attempt: nat, cancelled: bool, ctxErr: ContextError)
    returns (err: Option<string>, delay: nat)
    ensures delay == WaitDelay(attempt)
    ensures err.None? <==> !cancelled
    ensures err.Some? ==> err.value == ctxErr.Text()
  {
    delay := WaitDelay(attempt);
    if cancelled {
      err := Some(ctxErr.Text());
    } else {
      err := None;
    }
  }

  // ---------------------------------------------------------------------
  // The retry loop (executeWithRetry)
  // ---------------------------------------------------------------------

  /** What one retry sequence produced: the answer (Ok is a non-nil
      response, Err a nil one), the attempts sent and the waits begun (in
      seconds; a cancelled wait is the last one and was cut short). */
  datatype Run = Run(result: Result<ChatCompletionResponse, string>, attempts: nat, waits: seq<nat>)

  /** What each attempt would produce, in order. */
  function Attempts(outcomes: seq<HttpOutcome>): (rs: seq<Result<ChatCompletionResponse, string>>)
    ensures |rs| == |outcomes|
    ensures forall k :: 0 <= k < |outcomes| ==> rs[k] == Attempt(outcomes[k])
  {
    seq(|outcomes|, k requires 0 <= k < |outcomes| => Attempt(outcomes[k]))
  }

  /** The retry sequence from attempt `attempt` on; `cancelled[k]` says
      whether the context finishes during the wait after attempt k. */
  function RetryFrom(name: string, results: seq<Result<ChatCompletionResponse, string>>, cancelled: seq<bool>,
                     ctxErr: ContextError, attempt: nat): Run
    requires attempt < MaxRetries <= |results| && MaxRetries - 1 <= |cancelled|
    decreases MaxRetries - attempt
  {
    match results[attempt]
    case Ok(response) => Run(Ok(response), attempt + 1, [])
    case Err(e) =>
      if attempt == MaxRetries - 1 || !ShouldRetry(e) then
        Run(Err(Execute.FinalError(name, e)), attempt + 1, [])
      else if cancelled[attempt] then
        Run(Err(ctxErr.Text()), attempt + 1, [WaitDelay(attempt)])
      else
        var rest := RetryFrom(name, results, cancelled, ctxErr, attempt + 1);
        Run(rest.result, rest.attempts, [WaitDelay(attempt)] + rest.waits)
  }

  /** A sequence was cut short by the context when it began as many waits
      as it made attempts (an uninterrupted one begins one fewer). */
  predicate Interrupted(run: Run, attempt: nat) {
    |run.waits| == run.attempts - attempt
  }

  /** Delays from attempt + 1 on, preceded by attempt's own, are the
      delays from attempt on. */
  lemma WaitsShift(attempt: nat, rest: seq<nat>)
    requires forall k :: 0 <= k < |rest| ==> rest[k] == WaitDelay(attempt + 1 + k)
    ensures var waits := [WaitDelay(attempt)] + rest;
            forall k :: 0 <= k < |waits| ==> waits[k] == WaitDelay(attempt + k)
  {
    var waits := [WaitDelay(attempt)] + rest;
    forall k | 1 <= k < |waits|
      ensures waits[k] == WaitDelay(attempt + k)
    {
      assert waits[k] == rest[k - 1];
      assert attempt + 1 + (k - 1) == attempt + k;
    }
  }

  /** How many attempts and waits a retry sequence makes: at most three
      attempts, and one wait begun per attempt but the last, or one per
      attempt when the last wait was cancelled. */
  lemma {:induction false} RetryFromCount(name: string, results: seq<Result<ChatCompletionResponse, string>>,
                                          cancelled: seq<bool>, ctxErr: ContextError, attempt: nat)
    requires attempt < MaxRetries <= |results| && MaxRetries - 1 <= |cancelled|
    ensures var run := RetryFrom(name, results, cancelled, ctxErr, attempt);
      && attempt < run.attempts <= MaxRetries
      && (|run.waits| == run.attempts - attempt || |run.waits| == run.attempts - 1 - attempt)
    decreases MaxRetries - attempt
  {
    var r := results[attempt];
    var run := RetryFrom(name, results, cancelled, ctxErr, attempt);
    if r.Ok? {
      assert run == Run(r, attempt + 1, []);
    } else if attempt == MaxRetries - 1 || !ShouldRetry(r.error) {
      assert run == Run(Err(Execute.FinalError(name, r.error)), attempt + 1, []);
    } else if cancelled[attempt] {
      assert run == Run(Err(ctxErr.Text()), attempt + 1, [WaitDelay(attempt)]);
    } else {
      var rest := RetryFrom(name, results, cancelled, ctxErr, attempt + 1);
      RetryFromCount(name, results, cancelled, ctxErr, attempt + 1);
      assert run == Run(rest.result, rest.attempts, [WaitDelay(attempt)] + rest.waits);
    }
  }

  /** The waits of a retry sequence back off exponentially: the k-th wait
      begun lasts 2^k seconds. */
  lemma {:induction false} RetryFromWaits(name: string, results: seq<Result<ChatCompletionResponse, string>>,
                                          cancelled: seq<bool>, ctxErr: ContextError, attempt: nat)
    requires attempt < MaxRetries <= |results| && MaxRetries - 1 <= |cancelled|
    ensures var run := RetryFrom(name, results, cancelled, ctxErr, attempt);
      forall k :: 0 <= k < |run.waits| ==> run.waits[k] == WaitDelay(attempt + k)
    decreases MaxRetries - attempt
  {
    var r := results[attempt];
    var run := RetryFrom(name, results, cancelled, ctxErr, attempt);
    if r.Ok? {
      assert run == Run(r, attempt + 1, []);
    } else if attempt == MaxRetries - 1 || !ShouldRetry(r.error) {
      assert run == Run(Err(Execute.FinalError(name, r.error)), attempt + 1, []);
    } else if cancelled[attempt] {
      assert run == Run(Err(ctxErr.Text()), attempt + 1, [WaitDelay(attempt)]);
    } else {
      var rest := RetryFrom(name, results, cancelled, ctxErr, attempt + 1);
      RetryFromWaits(name, results, cancelled, ctxErr, attempt + 1);
      assert run == Run(rest.result, rest.attempts, [WaitDelay(attempt)] + rest.waits);
      WaitsShift(attempt, rest.waits);
    }
  }

  /** Every attempt of a retry sequence but the last failed retryably and
      the wait after it ran to the end. */
  lemma {:induction false} RetryFromEarlier(name: string, results: seq<Result<ChatCompletionResponse, string>>,
                                            cancelled: seq<bool>, ctxErr: ContextError, attempt: nat)
    requires attempt < MaxRetries <= |results| && MaxRetries - 1 <= |cancelled|
    ensures var run := RetryFrom(name, results, cancelled, ctxErr, attempt);
      forall k :: attempt <= k < run.attempts - 1 ==>
        results[k].Err? && ShouldRetry(results[k].error) && !cancelled[k]
    decreases MaxRetries - attempt
  {
    var r := results[attempt];
    if r.Err? && attempt != MaxRetries - 1 && ShouldRetry(r.error) && !cancelled[attempt] {
      RetryFromEarlier(name, results, cancelled, ctxErr, attempt + 1);
    }
  }

  /** How a retry sequence ends: a success is returned as the last attempt
      produced it; a cancelled wait ends the sequence at once with the bare
      context error, after a retryable failure that was not the last
      allowed attempt; otherwise the error wraps the last attempt's error
      and the stop was at the last allowed attempt or on a non-retryable
      error. */
  lemma {:induction false} RetryFromEnd(name: string, results: seq<Result<ChatCompletionResponse, string>>, cancelled: seq<bool>,
                                        ctxErr: ContextError, attempt: nat)
    requires attempt < MaxRetries <= |results| && MaxRetries - 1 <= |cancelled|
    ensures var run := RetryFrom(name, results, cancelled, ctxErr, attempt);
      var last := results[run.attempts - 1];
      && attempt < run.attempts <= MaxRetries
      && (run.result.Ok? ==> run.result == last && !Interrupted(run, attempt))
      && (Interrupted(run, attempt) ==>
            && last.Err? && ShouldRetry(last.error)
            && run.attempts < MaxRetries && cancelled[run.attempts - 1]
            && run.result == Err(ctxErr.Text()))
      && (run.result.Err? && !Interrupted(run, attempt) ==>
            && last.Err?
            && run.result.error == Execute.FinalError(name, last.error)
            && (run.attempts == MaxRetries || !ShouldRetry(last.error)))
    decreases MaxRetries - attempt
  {
    var r := results[attempt];
    var run := RetryFrom(name, results, cancelled, ctxErr, attempt);
    if r.Ok? {
      assert run == Run(r, attempt + 1, []);
    } else if attempt == MaxRetries - 1 || !ShouldRetry(r.error) {
      assert run == Run(Err(Execute.FinalError(name, r.error)), attempt + 1, []);
    } else if cancelled[attempt] {
      assert run == Run(Err(ctxErr.Text()), attempt + 1, [WaitDelay(attempt)]);
    } else {
      var rest := RetryFrom(name, results, cancelled, ctxErr, attempt + 1);
      RetryFromEnd(name, results, cancelled, ctxErr, attempt + 1);
      RetryFromCount(name, results, cancelled, ctxErr, attempt + 1);
      assert run == Run(rest.result, rest.attempts, [WaitDelay(attempt)] + rest.waits);
    }
  }

  /** The bare context error never reads like an exhausted-retries error:
      only the latter says "failed after". */
  lemma CancellationNotWrapped(ctxErr: ContextError, name: string, lastErr: string)
    ensures !Contains(ctxErr.Text(), "failed after")
    ensures Contains(Execute.FinalError(name, lastErr), "failed after")
  {
    assert "context canceled" == "context c" + "anceled";
    assert "context deadline exceeded" == "context d" + "eadline e" + "xceeded";
    NotContainsMissingChar(ctxErr.Text(), "failed after", 0);
    Execute.FinalErrorCitesMaxRetries(name, lastErr);
    ContainsPiece(Execute.FinalError(name, lastErr), "failed after 3 attempts", 0, 12);
    assert "failed after 3 attempts"[0..12] == "failed after";
  }

  /** With a context that is never done, this controller behaves exactly as
      execute.go's: same answer, same attempts, waits equal to its sleeps. */
  lemma {:induction false} UncancelledMatchesExecute(name: string, results: seq<Result<ChatCompletionResponse, string>>,
                                                     cancelled: seq<bool>, ctxErr: ContextError,
                                                     attempt: nat)
    requires attempt < MaxRetries <= |results| && MaxRetries - 1 <= |cancelled|
    requires forall k :: attempt <= k < |cancelled| ==> !cancelled[k]
    ensures var run := RetryFrom(name, results, cancelled, ctxErr, attempt);
            var other := Execute.RetryFrom(name, results, attempt);
            run.result == other.result && run.attempts == other.attempts && run.waits == other.sleeps
    decreases MaxRetries - attempt
  {
    var r := results[attempt];
    if r.Err? {
      assert ShouldRetry(r.error) == Execute.ShouldRetry(r.error);
      if attempt != MaxRetries - 1 && ShouldRetry(r.error) {
        UncancelledMatchesExecute(name, results, cancelled, ctxErr, attempt + 1);
      }
    }
  }

  /** Over the same outcomes and a context that is never done, the two
      controllers return the same answer after the same attempts, and this
      one's waits are the other's sleeps. */
  lemma UncancelledAgreesOnOutcomes(name: string, outcomes: seq<HttpOutcome>, cancelled: seq<bool>,
                                    ctxErr: ContextError)
    requires MaxRetries <= |outcomes| && MaxRetries - 1 <= |cancelled|
    requires forall k :: 0 <= k < |cancelled| ==> !cancelled[k]
    ensures var run := RetryFrom(name, Attempts(outcomes), cancelled, ctxErr, 0);
            var other := Execute.RetryFrom(name, Execute.Attempts(outcomes), 0);
            run.result == other.result && run.attempts == other.attempts && run.waits == other.sleeps
  {
    assert Attempts(outcomes) == Execute.Attempts(outcomes);
    UncancelledMatchesExecute(name, Attempts(outcomes), cancelled, ctxErr, 0);
  }

  /** A server error whose wait is cancelled: one attempt, one wait begun,
      and the bare context error. */
  lemma CancelledDuringFirstWait(name: string, body: string, later: seq<HttpOutcome>,
                                 ctxErr: ContextError, more: bool)
    requires |later| >= 2
    ensures RetryFrom(name, Attempts([Answered(500, body, DecodeFailed(""))] + later), [true, more], ctxErr, 0)
            == Run(Err(ctxErr.Text()), 1, [1])
  {
    Execute.ThreeDigitStatusRetry(500, body);
  }

  /** `run` preceded by waits already made. */
  function AfterWaits(waits: seq<nat>, run: Run): Run {
    Run(run.result, run.attempts, waits + run.waits)
  }

  /** The steps of the retry sequence, one lemma per way the loop body
      can end: success, a final failure, a cancelled wait, or a full wait
      before the next attempt. */
  lemma StepSucceeds(name: string, results: seq<Result<ChatCompletionResponse, string>>, cancelled: seq<bool>, ctxErr: ContextError,
                     attempt: nat, waits: seq<nat>)
    requires attempt < MaxRetries <= |results| && MaxRetries - 1 <= |cancelled|
    requires results[attempt].Ok?
    ensures AfterWaits(waits, RetryFrom(name, results, cancelled, ctxErr, attempt))
            == Run(results[attempt], attempt + 1, waits)
  {
    assert waits + [] == waits;
  }

  lemma StepGivesUp(name: string, results: seq<Result<ChatCompletionResponse, string>>, cancelled: seq<bool>, ctxErr: ContextError,
                    attempt: nat, waits: seq<nat>)
    requires attempt < MaxRetries <= |results| && MaxRetries - 1 <= |cancelled|
    requires results[attempt].Err?
    requires attempt == MaxRetries - 1 || !ShouldRetry(results[attempt].error)
    ensures AfterWaits(waits, RetryFrom(name, results, cancelled, ctxErr, attempt))
            == Run(Err(Execute.FinalError(name, results[attempt].error)), attempt + 1, waits)
  {
    assert waits + [] == waits;
  }

  lemma StepCancelled(name: string, results: seq<Result<ChatCompletionResponse, string>>, cancelled: seq<bool>, ctxErr: ContextError,
                      attempt: nat, waits: seq<nat>)
    requires attempt < MaxRetries - 1 && MaxRetries <= |results| && MaxRetries - 1 <= |cancelled|
    requires results[attempt].Err? && ShouldRetry(results[attempt].error) && cancelled[attempt]
    ensures AfterWaits(waits, RetryFrom(name, results, cancelled, ctxErr, attempt))
            == Run(Err(ctxErr.Text()), attempt + 1, waits + [WaitDelay(attempt)])
  {
  }

  lemma StepWaits(name: string, results: seq<Result<ChatCompletionResponse, string>>, cancelled: seq<bool>, ctxErr: ContextError,
                  attempt: nat, waits: seq<nat>)
    requires attempt < MaxRetries - 1 && MaxRetries <= |results| && MaxRetries - 1 <= |cancelled|
    requires results[attempt].Err? && ShouldRetry(results[attempt].error) && !cancelled[attempt]
    ensures AfterWaits(waits, RetryFrom(name, results, cancelled, ctxErr, attempt))
            == AfterWaits(waits + [WaitDelay(attempt)], RetryFrom(name, results, cancelled, ctxErr, attempt + 1))
  {
    var rest := RetryFrom(name, results, cancelled, ctxErr, attempt + 1);
    assert waits + ([WaitDelay(attempt)] + rest.waits) == (waits + [WaitDelay(attempt)]) + rest.waits;
  }

  /** executeWithRetry: one oracle outcome per attempt, one cancellation
      flag per wait; records every request handed to the transport (an
      attempt whose request could not be built sends none). */
  method ExecuteWithRetry(provider: Provider, body: ChatCompletionRequest, outcomes: seq<HttpOutcome>,
                          cancelled: seq<bool>, ctxErr: ContextError)
    returns (run: Run, sent: seq<HttpRequest>)
    requires MaxRetries <= |outcomes| && MaxRetries - 1 <= |cancelled|
    ensures run == RetryFrom(provider.name, Attempts(outcomes), cancelled, ctxErr, 0)
    ensures run.attempts <= MaxRetries
    ensures sent == Copies(PostRequest(provider, body), SentCount(outcomes, run.attempts))
  {
    var name := provider.name;
    ghost var results := Attempts(outcomes);
    var lastErr := "";
    var waits: seq<nat> := [];
    sent := [];
    var request := PostRequest(provider, body);  // rebuilt identically on every attempt
    var attempt: nat := 0;
    while attempt < MaxRetries
      invariant attempt < MaxRetries
      invariant sent == Copies(request, SentCount(outcomes, attempt))
      invariant RetryFrom(name, results, cancelled, ctxErr, 0)
                == AfterWaits(waits, RetryFrom(name, results, cancelled, ctxErr, attempt))
      decreases MaxRetries - attempt
    {
      CopiesHanded(outcomes, attempt, request);
      sent := sent + Handed(outcomes[attempt], request);  // client.Do
      var r := Attempt(outcomes[attempt]);
      assert r == results[attempt];
      if r.Ok? {
        StepSucceeds(name, results, cancelled, ctxErr, attempt, waits);
        return Run(r, attempt + 1, waits), sent;
      }
      lastErr := r.error;
      if attempt == MaxRetries - 1 {
        StepGivesUp(name, results, cancelled, ctxErr, attempt, waits);
        break;
      }
      if !ShouldRetry(lastErr) {
        StepGivesUp(name, results, cancelled, ctxErr, attempt, waits);
        break;
      }
      var waitErr, delay := WaitForRetry(attempt, cancelled[attempt], ctxErr);
      if waitErr.Some? {
        StepCancelled(name, results, cancelled, ctxErr, attempt, waits);
        waits := waits + [delay];
        return Run(Err(waitErr.value), attempt + 1, waits), sent;
      }
      StepWaits(name, results, cancelled, ctxErr, attempt, waits);
      waits := waits + [delay];
      attempt := attempt + 1;
    }
    run := Run(Err(Execute.FinalError(name, lastErr)), attempt + 1, waits);
  }

  /** Complete: send the caller's request with the provider's model
      (`marshal` is the encoder's failure, if any). */
  method Complete(provider: Provider, req: ChatCompletionRequest, marshal: Option<string>,
                  outcomes: seq<HttpOutcome>, cancelled: seq<bool>, ctxErr: ContextError)
    returns (run: Run, sent: seq<HttpRequest>)
    requires MaxRetries <= |outcomes| && MaxRetries - 1 <= |cancelled|
    ensures marshal.Some? ==> run == Run(Err(Execute.MarshalFailedPrefix + marshal.value), 0, []) && sent == []
    ensures marshal.None? ==> run == RetryFrom(provider.name, Attempts(outcomes), cancelled, ctxErr, 0)
    ensures run.attempts <= MaxRetries
    ensures sent == Copies(PostRequest(provider, Execute.WithModel(req, provider)), SentCount(outcomes, run.attempts))
  {
    var body := Execute.WithModel(req, provider);
    if marshal.Some? {
      return Run(Err(Execute.MarshalFailedPrefix + marshal.value), 0, []), [];
    }
    run, sent := ExecuteWithRetry(provider, body, outcomes, cancelled, ctxErr);
  }
}
