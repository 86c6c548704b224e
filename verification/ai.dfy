/** The summary client: when it makes a chat-completions request and what it makes of
    the answer. The HTTP exchange is an input (`ChatResponse`); the prompt wording and
    the sampling temperature are not modelled, only what the prompt is built from. */
module Ai {
  import opened JsStrings

  datatype AiConfig = AiConfig(endpoint: string, apiKey: string, model: string, enabled: bool)

  const DEFAULT_MODEL := "gpt-3.5-turbo"
  const NO_ABSTRACT := "_No abstract available for summary._"
  const SUMMARY_FAILED := "_AI summary generation failed._"

  /** One request posted to `<endpoint>/chat/completions`: a connection probe, or a
      summary request whose prompt is built from a title and an abstract. */
  datatype ChatRequest =
    | Ping(url: string, model: string)
    | Summarize(url: string, model: string, title: string, abstractNote: string)

  /** How a request ended: `fetch` or the JSON parse threw, the status was not ok, or
      the status was ok and the first choice's message content is given (absent when
      the payload has no such field). */
  datatype ChatResponse = Threw | NotOk | Ok(content: Option<string>)

  /** A result together with the request that was made to obtain it, if any. */
  datatype Answer<T> = Answer(request: Option<ChatRequest>, value: T)

  function CompletionsUrl(cfg: AiConfig): string {
    cfg.endpoint + "/chat/completions"
  }

  /** `config.model || 'gpt-3.5-turbo'` */
  function ModelOf(cfg: AiConfig): string {
    if cfg.model != "" then cfg.model else DEFAULT_MODEL
  }

  /** `testConnection`: vacuously true without a request when disabled; otherwise one
      probe request, and true exactly when its status was ok. */
  function TestConnection(cfg: AiConfig, response: ChatResponse): (r: Answer<bool>)
    ensures !cfg.enabled ==> r == Answer(None, true)
    ensures cfg.enabled ==> r.request.Some? && r.request.value.Ping?
    ensures cfg.enabled ==> (r.value <==> response.Ok?)
    ensures r.request.Some? ==> r.request.value.url == cfg.endpoint + "/chat/completions"
    ensures r.request.Some? ==> r.request.value.model == (if cfg.model == "" then "gpt-3.5-turbo" else cfg.model)
  {
    if !cfg.enabled then Answer(None, true)
    else Answer(Some(Ping(CompletionsUrl(cfg), ModelOf(cfg))), response.Ok?)
  }

  /** `generateSummary`: "" when disabled and a fixed placeholder for an empty abstract,
      both without a request; otherwise one request for the title and abstract, whose
      failure of any kind gives the failure placeholder and whose success gives the
      first choice's content (absent reads as "") trimmed. It never fails. */
  function GenerateSummary(cfg: AiConfig, title: string, abstractNote: string, response: ChatResponse): (r: Answer<string>)
    ensures !cfg.enabled ==> r == Answer(None, "")
    ensures cfg.enabled && abstractNote == "" ==> r == Answer(None, NO_ABSTRACT)
    ensures r.request.Some? <==> cfg.enabled && abstractNote != ""
    ensures r.request.Some? ==>
              r.request.value == Summarize(cfg.endpoint + "/chat/completions",
                                           if cfg.model == "" then "gpt-3.5-turbo" else cfg.model, title, abstractNote)
    ensures r.request.Some? && !response.Ok? ==> r.value == SUMMARY_FAILED
    ensures r.request.Some? && response.Ok? ==> r.value == Trim(OrElse(response.content, "")) && IsTrimmed(r.value)
    ensures r.request.Some? && response == Ok(None) ==> r.value == ""
  {
    if !cfg.enabled then Answer(None, "")
    else if abstractNote == "" then Answer(None, NO_ABSTRACT)
    else
      var request := Summarize(CompletionsUrl(cfg), ModelOf(cfg), title, abstractNote);
      match response
      case Threw => Answer(Some(request), SUMMARY_FAILED)
      case NotOk => Answer(Some(request), SUMMARY_FAILED)
      case Ok(content) => Answer(Some(request), Trim(OrElse(content, "")))
  }
}
