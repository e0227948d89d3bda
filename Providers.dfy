/** Endpoint presets of providers.go: four chat-completions URLs and a
    constructor per provider that binds a credential to one of them. */
module Providers {
  import opened Types

  /** Each URL is written as scheme, host and path; the concatenation is
      the full endpoint, character for character. */
  const OpenRouterEndpoint := "https://" + "openrouter.ai" + "/api/v1/chat/completions"
  const GroqEndpoint := "https://" + "api.groq.com" + "/openai/v1/chat/completions"
  const ChutesEndpoint := "https://" + "llm.chutes.ai" + "/v1/chat/completions"
  const GeminiEndpoint := "https://" + "generativelanguage.googleapis.com" + "/v1beta/openai/chat/completions"

  /** Each constructor fills in only the endpoint and the credential; the
      name and the model stay empty for the caller to set. */
  function OpenRouter(apiKey: string): (p: Provider)
    ensures p.endpoint == OpenRouterEndpoint && p.apiKey == apiKey
    ensures p.name == "" && p.model == ""
  {
    Provider("", OpenRouterEndpoint, apiKey, "")
  }

  function Groq(apiKey: string): (p: Provider)
    ensures p.endpoint == GroqEndpoint && p.apiKey == apiKey
    ensures p.name == "" && p.model == ""
  {
    Provider("", GroqEndpoint, apiKey, "")
  }

  function Chutes(apiKey: string): (p: Provider)
    ensures p.endpoint == ChutesEndpoint && p.apiKey == apiKey
    ensures p.name == "" && p.model == ""
  {
    Provider("", ChutesEndpoint, apiKey, "")
  }

  function Gemini(apiKey: string): (p: Provider)
    ensures p.endpoint == GeminiEndpoint && p.apiKey == apiKey
    ensures p.name == "" && p.model == ""
  {
    Provider("", GeminiEndpoint, apiKey, "")
  }

  /** No two presets share an endpoint. */
  lemma EndpointsDistinct()
    ensures OpenRouterEndpoint != GroqEndpoint && OpenRouterEndpoint != ChutesEndpoint
    ensures OpenRouterEndpoint != GeminiEndpoint && GroqEndpoint != ChutesEndpoint
    ensures GroqEndpoint != GeminiEndpoint && ChutesEndpoint != GeminiEndpoint
  {
  }
}
