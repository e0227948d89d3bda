/** The string logic of the command-line front end (cmd/general/main.go):
    the repeatable -t/--target flag, parsing `provider:model` targets
    against the registry of providers and the environment, assembling and
    checking the prompt, and naming a provider from its endpoint URL. */
module Cli {
  import opened GoStrings
  import opened Types
  import opened Providers

  // ---------------------------------------------------------------------
  // The repeatable flag
  // ---------------------------------------------------------------------

  /** The values collected for -t/--target, in command-line order. */
  class TargetFlag {
    var values: seq<string>

    constructor()
      ensures values == []
    {
      values := [];
    }

    /** The flag's display form: every value in order, each but the last
        followed by ", ", and nothing else. */
    function String(): (s: string)
      reads this
      ensures values == [] ==> s == ""
      ensures values != [] ==> JoinedFrom(s, values, ", ")
    {
      if values == [] then ""
      else
        JoinLayout(values, ", ");
        Join(values, ", ")
    }

    /** Set: appends the value after those already given; never fails. */
    method Set(value: string) returns (err: Option<string>)
      modifies this
      ensures values == old(values) + [value]
      ensures err.None?
    {
      values := values + [value];
      err := None;
    }
  }

  /** Each repetition of the flag adds exactly its value at the end, so the
      collected values are the arguments in order. */
  method CollectTargets(args: seq<string>) returns (flag: TargetFlag)
    ensures fresh(flag)
    ensures flag.values == args
  {
    flag := new TargetFlag();
    var i := 0;
    while i < |args|
      invariant 0 <= i <= |args|
      invariant flag.values == args[..i]
    {
      var err := flag.Set(args[i]);
      assert args[..i + 1] == args[..i] + [args[i]];
      i := i + 1;
    }
    assert args[..i] == args;
  }

  // ---------------------------------------------------------------------
  // The registries
  // ---------------------------------------------------------------------

  /** Provider name to constructor. */
  const ProviderConstructors: map<string, string -> Provider> := map[
    "openrouter" := OpenRouter,
    "groq" := Groq,
    "chutes" := Chutes,
    "gemini" := Gemini]

  /** Provider name to the environment variable holding its API key. */
  const EnvVarNames: map<string, string> := map[
    "openrouter" := "OPENROUTER_API_KEY",
    "groq" := "GROQ_API_KEY",
    "chutes" := "CHUTES_API_KEY",
    "gemini" := "GEMINI_API_KEY"]

  /** The accepted provider names. */
  predicate IsProviderName(name: string) {
    name == "openrouter" || name == "groq" || name == "chutes" || name == "gemini"
  }

  /** Both registries know exactly the four provider names. */
  lemma RegistriesAgree(name: string)
    ensures name in ProviderConstructors <==> IsProviderName(name)
    ensures name in EnvVarNames <==> IsProviderName(name)
  {
  }

  /** os.Getenv: an unset variable reads as the empty string. */
  function Getenv(env: map<string, string>, key: string): (v: string)
    ensures key in env ==> v == env[key]
    ensures key !in env ==> v == ""
  {
    if key in env then env[key] else ""
  }

  // ---------------------------------------------------------------------
  // Target parsing
  // ---------------------------------------------------------------------

  /** A parsed target: the configured provider and the model to ask. */
  datatype Target = Target(provider: Provider, model: string)

  /** Why the front end gives up before sending anything. */
  datatype CliError =
    | NoTargets
    | InvalidTarget(target: string)
    | UnknownProvider(name: string)
    | KeyNotSet(envVar: string)
    | EmptyPrompt

  /** One target string: split at the first ':', lower-case the provider
      part, look it up, and read its API key from the environment. */
  function ParseTarget(t: string, env: map<string, string>): Result<Target, CliError> {
    match SplitFirst(t, ':')
    case None => Err(InvalidTarget(t))
    case Some((head, model)) =>
      var name := ToLower(head);
      if name !in ProviderConstructors then Err(UnknownProvider(name))
      else
        var envVar := EnvVarNames[name];
        var apiKey := Getenv(env, envVar);
        if apiKey == "" then Err(KeyNotSet(envVar))
        else Ok(Target(ProviderConstructors[name](apiKey), model))
  }

  /** The registered names are written in lower case. */
  lemma ProviderNamesLowerCase(n: string)
    requires IsProviderName(n)
    ensures forall i :: 0 <= i < |n| ==> !IsUpperAscii(n[i])
  {
  }

  /** A provider part is accepted exactly when it spells a registered
      name with any of its letters in upper case ("Groq", "OPENROUTER"). */
  lemma ProviderNameUpToCase(head: string)
    ensures IsProviderName(ToLower(head)) <==> exists n :: IsProviderName(n) && CaseVariant(head, n)
  {
    var lowered := ToLower(head);
    if IsProviderName(lowered) {
      ProviderNamesLowerCase(lowered);
      ToLowerMatches(head, lowered);
      assert CaseVariant(head, lowered);
    }
    forall n | IsProviderName(n) && CaseVariant(head, n)
      ensures IsProviderName(ToLower(head))
    {
      ProviderNamesLowerCase(n);
      ToLowerMatches(head, n);
    }
  }

  /** A target without ':' is rejected as malformed. */
  lemma ParseTargetNoColon(t: string, env: map<string, string>)
    requires ':' !in t
    ensures ParseTarget(t, env) == Err(InvalidTarget(t))
  {
    SplitFirstSpec(t, ':');
  }

  /** A target with a ':' is `head:model` with no ':' in `head` (SplitFirstSpec).
      Its fate: an unregistered lower-cased head is an unknown provider; an
      empty or unset key variable is reported by name; otherwise the
      provider's constructor receives exactly that key and the model part,
      colons included, is kept verbatim. */
  lemma ParseTargetCases(head: string, model: string, env: map<string, string>)
    requires ':' !in head
    ensures var r := ParseTarget(head + [':'] + model, env);
            var name := ToLower(head);
            && (!IsProviderName(name) ==> r == Err(UnknownProvider(name)))
            && (IsProviderName(name) && Getenv(env, EnvVarNames[name]) == "" ==>
                  r == Err(KeyNotSet(EnvVarNames[name])))
            && (IsProviderName(name) && Getenv(env, EnvVarNames[name]) != "" ==>
                  r == Ok(Target(ProviderConstructors[name](Getenv(env, EnvVarNames[name])), model)))
  {
    SplitFirstJoin(head, model, ':');
  }

  /** Provider names are matched without regard to ASCII case. */
  lemma ParseTargetCaseInsensitive(head1: string, head2: string, model: string, env: map<string, string>)
    requires ':' !in head1 && ':' !in head2 && ToLower(head1) == ToLower(head2)
    ensures ParseTarget(head1 + [':'] + model, env) == ParseTarget(head2 + [':'] + model, env)
  {
    ParseTargetCases(head1, model, env);
    ParseTargetCases(head2, model, env);
  }

  /** Every accepted target names a preset endpoint whose name, read back
      from the URL, is the lower-cased provider part, and carries the
      environment's non-empty key for that provider. */
  lemma ParseTargetRoundTrip(head: string, model: string, env: map<string, string>)
    requires ':' !in head
    ensures var r := ParseTarget(head + [':'] + model, env);
            r.Ok? ==>
              && IsProviderName(ToLower(head))
              && ProviderNameFromEndpoint(r.value.provider.endpoint) == ToLower(head)
              && r.value.provider.apiKey == Getenv(env, EnvVarNames[ToLower(head)]) != ""
              && r.value.model == model
  {
    ParseTargetCases(head, model, env);
    var r := ParseTarget(head + [':'] + model, env);
    if r.Ok? {
      NameOfConstructedEndpoint(ToLower(head), r.value.provider.apiKey);
    }
  }

  /** Every target in the list parses. */
  predicate AllParse(targets: seq<string>, env: map<string, string>) {
    forall k :: 0 <= k < |targets| ==> ParseTarget(targets[k], env).Ok?
  }

  /** Target `k` is the first one that fails to parse. */
  predicate FirstFailure(targets: seq<string>, env: map<string, string>, k: int) {
    && 0 <= k < |targets| && ParseTarget(targets[k], env).Err?
    && forall j :: 0 <= j < k ==> ParseTarget(targets[j], env).Ok?
  }

  /** The target loop of main: no targets is an error; otherwise each
      target is parsed in turn and appended, stopping at the first bad one.
      The result is the parsed targets in their given order when all parse,
      and otherwise the error of the first that does not. */
  method ParseTargets(targets: seq<string>, env: map<string, string>) returns (r: Result<seq<Target>, CliError>)
    ensures |targets| == 0 ==> r == Err(NoTargets)
    ensures |targets| > 0 ==> (r.Ok? <==> AllParse(targets, env))
    ensures r.Ok? ==> |r.value| == |targets|
                      && forall k :: 0 <= k < |targets| ==> ParseTarget(targets[k], env) == Ok(r.value[k])
    ensures |targets| > 0 && r.Err? ==>
              exists k :: FirstFailure(targets, env, k) && r == Err(ParseTarget(targets[k], env).error)
  {
    if |targets| == 0 {
      return Err(NoTargets);
    }
    var parsed: seq<Target> := [];
    var i := 0;
    while i < |targets|
      invariant 0 <= i <= |targets| && |parsed| == i
      invariant forall k :: 0 <= k < i ==> ParseTarget(targets[k], env) == Ok(parsed[k])
    {
      var t := ParseTarget(targets[i], env);
      if t.Err? {
        assert FirstFailure(targets, env, i);
        return Err(t.error);
      }
      parsed := parsed + [t.value];
      i := i + 1;
    }
    r := Ok(parsed);
  }

  // ---------------------------------------------------------------------
  // The prompt
  // ---------------------------------------------------------------------

  /** The prompt: the positional arguments joined by " ", or, when there are
      none, the standard-input lines joined by "\n". */
  function PromptText(args: seq<string>, lines: seq<string>): string {
    if |args| > 0 then Join(args, " ") else Join(lines, "\n")
  }

  /** Reads the prompt; the standard-input lines (already split, without
      their line ends) are collected one by one. */
  method ReadPrompt(args: seq<string>, stdinLines: seq<string>) returns (prompt: string)
    ensures prompt == PromptText(args, stdinLines)
    ensures |args| == 1 ==> prompt == args[0]
    ensures |args| == 0 && |stdinLines| == 1 ==> prompt == stdinLines[0]
  {
    if |args| > 0 {
      prompt := Join(args, " ");
    } else {
      var lines: seq<string> := [];
      var i := 0;
      while i < |stdinLines|
        invariant 0 <= i <= |stdinLines|
        invariant lines == stdinLines[..i]
      {
        lines := lines + [stdinLines[i]];
        i := i + 1;
      }
      assert lines == stdinLines;
      prompt := Join(lines, "\n");
    }
  }

  /** The emptiness check: a prompt is refused exactly when it is all
      white space (the empty prompt included). */
  function CheckPrompt(prompt: string): (r: Option<CliError>)
    ensures r.None? || r == Some(EmptyPrompt)
    ensures r.Some? <==> AllSpace(prompt)
  {
    TrimSpaceEmpty(prompt);
    if TrimSpace(prompt) == "" then Some(EmptyPrompt) else None
  }

  /** A prompt is refused exactly when every piece it was joined from is
      blank: every argument, or, without arguments, every input line. */
  lemma PromptRefusedIffBlank(args: seq<string>, lines: seq<string>)
    ensures CheckPrompt(PromptText(args, lines)).Some? <==>
            if |args| > 0 then forall k :: 0 <= k < |args| ==> AllSpace(args[k])
            else forall k :: 0 <= k < |lines| ==> AllSpace(lines[k])
  {
    assert AllSpace(" ") && AllSpace("\n");
    if |args| > 0 {
      JoinAllSpace(args, " ");
    } else {
      JoinAllSpace(lines, "\n");
    }
  }

  /** The request sent to every target: the prompt as the one user message. */
  function UserRequest(prompt: string): (req: ChatCompletionRequest)
    ensures |req.messages| == 1
    ensures req.messages[0].role == "user" && req.messages[0].content == prompt
    ensures req.messages[0].toolCalls == [] && req.tools == []
  {
    ChatCompletionRequest("", [ChatCompletionMessage("user", prompt, [], "")], 0, [])
  }

  /** What main hands to the dispatcher, checked in main's order: the
      targets first, then the prompt. */
  method Prepare(targets: seq<string>, env: map<string, string>, args: seq<string>, stdinLines: seq<string>)
    returns (r: Result<(seq<Target>, ChatCompletionRequest), CliError>)
    ensures |targets| == 0 ==> r == Err(NoTargets)
    ensures |targets| > 0 && !AllParse(targets, env) ==>
              exists k :: FirstFailure(targets, env, k) && r == Err(ParseTarget(targets[k], env).error)
    ensures |targets| > 0 && AllParse(targets, env) && AllSpace(PromptText(args, stdinLines)) ==>
              r == Err(EmptyPrompt)
    ensures r.Ok? <==> |targets| > 0 && AllParse(targets, env) && !AllSpace(PromptText(args, stdinLines))
    ensures r.Ok? ==> && |r.value.0| == |targets|
                      && (forall k :: 0 <= k < |targets| ==> ParseTarget(targets[k], env) == Ok(r.value.0[k]))
                      && r.value.1 == UserRequest(PromptText(args, stdinLines))
  {
    var parsed := ParseTargets(targets, env);
    if parsed.Err? {
      return Err(parsed.error);
    }
    var prompt := ReadPrompt(args, stdinLines);
    var bad := CheckPrompt(prompt);
    if bad.Some? {
      return Err(bad.value);
    }
    r := Ok((parsed.value, UserRequest(prompt)));
  }

  // ---------------------------------------------------------------------
  // Naming a provider from its endpoint
  // ---------------------------------------------------------------------

  /** The text whose presence in an endpoint identifies each provider. */
  function EndpointMark(name: string): string {
    if name == "gemini" then "generativelanguage.googleapis" else name
  }

  /** providerNameFromEndpoint: the first provider, in the order
      openrouter, groq, chutes, gemini, whose mark occurs in the URL. */
  function ProviderNameFromEndpoint(endpoint: string): (r: string)
    ensures r == "unknown" || IsProviderName(r)
    ensures IsProviderName(r) ==> Contains(endpoint, EndpointMark(r))
    ensures r == "unknown" <==> forall n :: IsProviderName(n) ==> !Contains(endpoint, EndpointMark(n))
    ensures r == "openrouter" <==> Contains(endpoint, "openrouter")
    ensures r == "groq" <==> !Contains(endpoint, "openrouter") && Contains(endpoint, "groq")
    ensures r == "chutes" <==>
              !Contains(endpoint, "openrouter") && !Contains(endpoint, "groq") && Contains(endpoint, "chutes")
    ensures r == "gemini" <==>
              && !Contains(endpoint, "openrouter") && !Contains(endpoint, "groq") && !Contains(endpoint, "chutes")
              && Contains(endpoint, EndpointMark("gemini"))
  {
    if Contains(endpoint, "openrouter") then "openrouter"
    else if Contains(endpoint, "groq") then "groq"
    else if Contains(endpoint, "chutes") then "chutes"
    else if Contains(endpoint, "generativelanguage.googleapis") then "gemini"
    else "unknown"
  }

  lemma OpenRouterEndpointName()
    ensures ProviderNameFromEndpoint(OpenRouterEndpoint) == "openrouter"
  {
    assert "openrouter.ai" == "" + "openrouter" + ".ai";
    ContainsInfix("", "openrouter", ".ai");
    ContainsWithin("https://", "openrouter.ai", "/api/v1/chat/completions", "openrouter");
  }

  lemma GroqEndpointName()
    ensures ProviderNameFromEndpoint(GroqEndpoint) == "groq"
  {
    assert 'u' !in GroqEndpoint;
    NotContainsMissingChar(GroqEndpoint, "openrouter", 6);
    assert "api.groq.com" == "api." + "groq" + ".com";
    ContainsInfix("api.", "groq", ".com");
    ContainsWithin("https://", "api.groq.com", "/openai/v1/chat/completions", "groq");
  }

  lemma ChutesEndpointName()
    ensures ProviderNameFromEndpoint(ChutesEndpoint) == "chutes"
  {
    assert 'r' !in ChutesEndpoint;
    NotContainsMissingChar(ChutesEndpoint, "openrouter", 4);
    NotContainsMissingChar(ChutesEndpoint, "groq", 1);
    assert "llm.chutes.ai" == "llm." + "chutes" + ".ai";
    ContainsInfix("llm.", "chutes", ".ai");
    ContainsWithin("https://", "llm.chutes.ai", "/v1/chat/completions", "chutes");
  }

  /** The Gemini host's only 'r' and only 'u' are each followed by 'a'. */
  lemma GeminiHostNoRo()
    ensures !Contains("generativelanguage.googleapis.com", "ro")
  {
    GeminiLangNoRo();
    NotContainsMissingChar("uage.googleapis.com", "ro", 0);
    NoPairAcross("generativelang", "uage.googleapis.com", "ro");
    assert "generativelanguage.googleapis.com" == "generativelang" + "uage.googleapis.com";
  }

  lemma GeminiLangNoRo()
    ensures !Contains("generativelang", "ro")
  {
    var b := "rativelang";
    assert "generativelang" == "gene" + b;
    ContainsAfterFreePrefix("gene", b, "ro");
    ContainsSkipHead(b, "ro", 1);
    assert b[1..] == "ativelang";
    NotContainsMissingChar(b[1..], "ro", 0);
  }

  lemma GeminiHostNoUt()
    ensures !Contains("generativelanguage.googleapis.com", "ut")
  {
    var b := "uage.googleapis.com";
    assert "generativelanguage.googleapis.com" == "generativelang" + "uage.googleapis.com";
    ContainsAfterFreePrefix("generativelang", b, "ut");
    ContainsSkipHead(b, "ut", 1);
    assert b[1..] == "age.googleapis.com";
    NotContainsMissingChar(b[1..], "ut", 0);
  }

  /** Neither "ro" (inside "openrouter") nor "ut" (inside "chutes") occurs
      in the Gemini endpoint: scheme and path hold no 'r' and no 'u'. */
  lemma GeminiEndpointNoPair(p: string)
    requires p == "ro" || p == "ut"
    ensures !Contains(GeminiEndpoint, p)
  {
    var host := "generativelanguage.googleapis.com";
    var path := "/v1beta/openai/chat/completions";
    if p == "ro" { GeminiHostNoRo(); } else { GeminiHostNoUt(); }
    assert p[0] !in "https://" && p[0] !in path;
    NotContainsMissingChar("https://", p, 0);
    NotContainsMissingChar(path, p, 0);
    NoPairAcross("https://", host, p);
    assert ("https://" + host)[|"https://" + host| - 1] == host[|host| - 1] == 'm';
    NoPairAcross("https://" + host, path, p);
  }

  /** The Gemini endpoint holds no "ro", so no "openrouter". */
  lemma GeminiEndpointNoOpenRouter()
    ensures !Contains(GeminiEndpoint, "openrouter")
  {
    GeminiEndpointNoPair("ro");
    assert "openrouter"[4..6] == "ro";
    ContainsPiece(GeminiEndpoint, "openrouter", 4, 6);
  }

  /** The Gemini endpoint holds no 'q', so no "groq". */
  lemma GeminiEndpointNoGroq()
    ensures !Contains(GeminiEndpoint, "groq")
  {
    assert 'q' !in GeminiEndpoint;
    NotContainsMissingChar(GeminiEndpoint, "groq", 3);
  }

  /** The Gemini endpoint holds no "ut", so no "chutes". */
  lemma GeminiEndpointNoChutes()
    ensures !Contains(GeminiEndpoint, "chutes")
  {
    GeminiEndpointNoPair("ut");
    assert "chutes"[2..4] == "ut";
    ContainsPiece(GeminiEndpoint, "chutes", 2, 4);
  }

  lemma GeminiEndpointName()
    ensures ProviderNameFromEndpoint(GeminiEndpoint) == "gemini"
  {
    GeminiEndpointNoOpenRouter();
    GeminiEndpointNoGroq();
    GeminiEndpointNoChutes();
    var host := "generativelanguage.googleapis.com";
    assert host == "" + "generativelanguage.googleapis" + ".com";
    ContainsInfix("", "generativelanguage.googleapis", ".com");
    ContainsWithin("https://", host, "/v1beta/openai/chat/completions", "generativelanguage.googleapis");
  }

  /** Round trip: naming the endpoint of any registered constructor's
      provider gives back the name it was registered under. */
  lemma NameOfConstructedEndpoint(name: string, apiKey: string)
    requires name in ProviderConstructors
    ensures ProviderNameFromEndpoint(ProviderConstructors[name](apiKey).endpoint) == name
  {
    if name == "openrouter" {
      OpenRouterEndpointName();
    } else if name == "groq" {
      GroqEndpointName();
    } else if name == "chutes" {
      ChutesEndpointName();
    } else {
      GeminiEndpointName();
    }
  }
}
