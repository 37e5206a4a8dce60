/**
 * The DeepWiki client (src/tools/deepwiki_client.py): which service a model
 * name selects, what a query answers (the DeepWiki tool, the plain-chat
 * fallback, or a mapped error), the repository analysis, and the summary of
 * several query results.
 *
 * Every call to a generation service is a parameter (`Call`), and the
 * process environment is a map. The page scraping that feeds the analysis
 * prompt is not part of this model: the analysis call receives the DeepWiki
 * address it would have scraped.
 */
module Deepwiki {
  import opened Text
  import opened PipelineState

  // ---------------------------------------------------------------------
  // Building the client (`DeepWikiClient.__init__`, `get_deepwiki_client`)

  /** The service whose key and base address a model name selects. */
  datatype Provider = DeepSeekProvider | QwenProvider | ClaudeProvider | OpenAIProvider

  /** The kind of client `client_type` names. */
  datatype ClientType = AnthropicClient | DeepSeekClient | OpenAIClient

  /** The key and base address come from the first of "deepseek", "qwen", "claude" found in the lower-cased name. */
  function ProviderFor(model: string): Provider
  {
    var m := Lower(model);
    if Contains(m, "deepseek") then DeepSeekProvider
    else if Contains(m, "qwen") then QwenProvider
    else if Contains(m, "claude") then ClaudeProvider
    else OpenAIProvider
  }

  function KeyVariable(p: Provider): string
  {
    match p
    case DeepSeekProvider => "DEEPSEEK_API_KEY"
    case QwenProvider => "QWEN_API_KEY"
    case ClaudeProvider => "CLAUDE_API_KEY"
    case OpenAIProvider => "OPENAI_API_KEY"
  }

  function BaseUrlVariable(p: Provider): string
  {
    match p
    case DeepSeekProvider => "DEEPSEEK_BASE_URL"
    case QwenProvider => "QWEN_BASE_URL"
    case ClaudeProvider => "CLAUDE_BASE_URL"
    case OpenAIProvider => "OPENAI_BASE_URL"
  }

  function DefaultBaseUrl(p: Provider): string
  {
    match p
    case DeepSeekProvider => "https://api.deepseek.com"
    case QwenProvider => "https://dashscope.aliyuncs.com/compatible-mode/v1"
    case ClaudeProvider => "https://api.anthropic.com"
    case OpenAIProvider => "https://api.openai.com/v1"
  }

  /** `os.getenv(name)` */
  function GetEnv(env: map<string, string>, name: string): Option<string>
  {
    if name in env then Some(env[name]) else None
  }

  /** `os.getenv(name, default)` */
  function GetEnvOr(env: map<string, string>, name: string, default: string): string
  {
    if name in env then env[name] else default
  }

  /**
   * `client_type`: Anthropic when the lower-cased name holds "claude" and the
   * Anthropic library imports, DeepSeek when it holds "deepseek" and not
   * "claude", OpenAI otherwise.
   */
  function ClientTypeFor(model: string, anthropicInstalled: bool): (r: ClientType)
    ensures r == AnthropicClient <==> Contains(Lower(model), "claude") && anthropicInstalled
    ensures r == DeepSeekClient <==> !Contains(Lower(model), "claude") && Contains(Lower(model), "deepseek")
    ensures r == OpenAIClient <==>
              (Contains(Lower(model), "claude") && !anthropicInstalled) ||
              (!Contains(Lower(model), "claude") && !Contains(Lower(model), "deepseek"))
  {
    var m := Lower(model);
    var kind := if Contains(m, "claude") then AnthropicClient
                else if Contains(m, "deepseek") then DeepSeekClient
                else OpenAIClient;
    if kind == AnthropicClient && !anthropicInstalled then OpenAIClient else kind
  }

  /** A DeepWiki client: its model, key, base address, kind, and whether it falls back to plain chat. */
  datatype Client = Client(model: string, apiKey: Option<string>, baseUrl: string, clientType: ClientType,
                           serverUrl: string, fallbackEnabled: bool)

  const DeepwikiServer: string := "https://deepwiki.com"

  /**
   * `DeepWikiClient(api_key, model)`: a given key is kept, a missing or
   * empty one is read from the selected provider's key variable; the base
   * address is the provider's variable or its default either way.
   */
  function NewClient(apiKey: Option<string>, model: string, env: map<string, string>,
                     anthropicInstalled: bool): (c: Client)
    ensures c.model == model && c.serverUrl == "https://deepwiki.com" && c.fallbackEnabled
    ensures Truthy(apiKey) ==> c.apiKey == apiKey
    ensures !Truthy(apiKey) ==> c.apiKey == GetEnv(env, KeyVariable(ProviderFor(model)))
    ensures c.baseUrl == GetEnvOr(env, BaseUrlVariable(ProviderFor(model)), DefaultBaseUrl(ProviderFor(model)))
    ensures c.clientType == ClientTypeFor(model, anthropicInstalled)
  {
    var p := ProviderFor(model);
    var key := if Truthy(apiKey) then apiKey else GetEnv(env, KeyVariable(p));
    Client(model, key, GetEnvOr(env, BaseUrlVariable(p), DefaultBaseUrl(p)),
           ClientTypeFor(model, anthropicInstalled), DeepwikiServer, true)
  }

  /**
   * The model `get_deepwiki_client` (and `main`) picks when none is given:
   * by the lower-cased MODEL_PROVIDER (default "openai"), that provider's
   * model variable or its default.
   */
  function DefaultModel(env: map<string, string>): string
  {
    var provider := Lower(GetEnvOr(env, "MODEL_PROVIDER", "openai"));
    if provider == "deepseek" then GetEnvOr(env, "DEEPSEEK_MODEL", "deepseek-v3")
    else if provider == "qwen" then GetEnvOr(env, "QWEN_MODEL", "qwen-3")
    else if provider == "claude" then GetEnvOr(env, "CLAUDE_MODEL", "claude-4-sonnet")
    else GetEnvOr(env, "OPENAI_MODEL", "gpt-5")
  }

  /** `get_deepwiki_client(api_key, model)` */
  function GetClient(apiKey: Option<string>, model: Option<string>, env: map<string, string>,
                     anthropicInstalled: bool): (c: Client)
    ensures Truthy(model) ==> c.model == model.value
    ensures !Truthy(model) ==> c.model == DefaultModel(env)
  {
    NewClient(apiKey, if Truthy(model) then model.value else DefaultModel(env), env, anthropicInstalled)
  }

  /**
   * With no model variables set, the default model of each provider selects
   * that provider's key and the matching client: "claude" an Anthropic
   * client (when the library imports), "deepseek" a DeepSeek client, and
   * anything else an OpenAI one.
   */
  lemma DefaultClientMatchesProvider(env: map<string, string>, anthropicInstalled: bool)
    requires "DEEPSEEK_MODEL" !in env && "QWEN_MODEL" !in env && "CLAUDE_MODEL" !in env && "OPENAI_MODEL" !in env
    ensures var c := GetClient(None, None, env, anthropicInstalled);
            var provider := Lower(GetEnvOr(env, "MODEL_PROVIDER", "openai"));
            && (provider == "claude" ==> ProviderFor(c.model) == ClaudeProvider && (anthropicInstalled <==> c.clientType == AnthropicClient))
            && (provider == "deepseek" ==> ProviderFor(c.model) == DeepSeekProvider && c.clientType == DeepSeekClient)
            && (provider == "qwen" ==> ProviderFor(c.model) == QwenProvider && c.clientType == OpenAIClient)
            && (provider !in {"claude", "deepseek", "qwen"} ==> ProviderFor(c.model) == OpenAIProvider && c.clientType == OpenAIClient)
  {
    hide Contains, Lower;
    ModelNames();
  }

  /** What the four default model names contain. */
  lemma ModelNames()
    ensures Lower("claude-4-sonnet") == "claude-4-sonnet" && Lower("deepseek-v3") == "deepseek-v3"
    ensures Lower("qwen-3") == "qwen-3" && Lower("gpt-5") == "gpt-5"
    ensures Contains("claude-4-sonnet", "claude") && !Contains("claude-4-sonnet", "deepseek") && !Contains("claude-4-sonnet", "qwen")
    ensures Contains("deepseek-v3", "deepseek") && !Contains("deepseek-v3", "claude")
    ensures Contains("qwen-3", "qwen") && !Contains("qwen-3", "deepseek") && !Contains("qwen-3", "claude")
    ensures !Contains("gpt-5", "deepseek") && !Contains("gpt-5", "qwen") && !Contains("gpt-5", "claude")
  {
    ClaudeName();
    DeepSeekName();
    QwenName();
    GptName();
  }

  lemma ClaudeName()
    ensures Lower("claude-4-sonnet") == "claude-4-sonnet"
    ensures Contains("claude-4-sonnet", "claude") && !Contains("claude-4-sonnet", "deepseek") && !Contains("claude-4-sonnet", "qwen")
  {
    hide Lower, Contains;
    LowerUnchanged("claude-4-sonnet");
    PrefixContained("claude-4-sonnet", "claude");
    MissingCharNotContained("claude-4-sonnet", "deepseek", 3);
    MissingCharNotContained("claude-4-sonnet", "qwen", 0);
  }

  lemma DeepSeekName()
    ensures Lower("deepseek-v3") == "deepseek-v3"
    ensures Contains("deepseek-v3", "deepseek") && !Contains("deepseek-v3", "claude")
  {
    hide Lower, Contains;
    LowerUnchanged("deepseek-v3");
    PrefixContained("deepseek-v3", "deepseek");
    MissingCharNotContained("deepseek-v3", "claude", 0);
  }

  lemma QwenName()
    ensures Lower("qwen-3") == "qwen-3"
    ensures Contains("qwen-3", "qwen") && !Contains("qwen-3", "deepseek") && !Contains("qwen-3", "claude")
  {
    hide Lower, Contains;
    LowerUnchanged("qwen-3");
    PrefixContained("qwen-3", "qwen");
    MissingCharNotContained("qwen-3", "deepseek", 0);
    MissingCharNotContained("qwen-3", "claude", 0);
  }

  lemma GptName()
    ensures Lower("gpt-5") == "gpt-5"
    ensures !Contains("gpt-5", "deepseek") && !Contains("gpt-5", "qwen") && !Contains("gpt-5", "claude")
  {
    hide Lower, Contains;
    LowerUnchanged("gpt-5");
    MissingCharNotContained("gpt-5", "deepseek", 0);
    MissingCharNotContained("gpt-5", "qwen", 0);
    MissingCharNotContained("gpt-5", "claude", 0);
  }

  /**
   * The key and the client are chosen in different orders: a name holding
   * both "deepseek" and "claude" reads the DeepSeek key and base address but
   * builds an Anthropic client when that library imports.
   */
  lemma KeyAndClientOrderDiffer(model: string)
    requires Contains(Lower(model), "deepseek") && Contains(Lower(model), "claude")
    ensures ProviderFor(model) == DeepSeekProvider
    ensures ClientTypeFor(model, true) == AnthropicClient
  {
  }

  // ---------------------------------------------------------------------
  // Queries (`query`, `_fallback_analysis`)

  /** One call to a generation service: the text it answered, or the exception's message. */
  datatype Call = Replied(text: string) | CallFailed(message: string)

  /**
   * A result dictionary of `query`: `success`, and each optional key present
   * or absent. `_summarize_analysis` reads the same dictionaries.
   */
  datatype Reply = Reply(success: bool, outputText: Option<string>, source: Option<string>,
                         question: Option<string>, model: Option<string>,
                         error: Option<string>, suggestion: Option<string>)

  const Unavailable: string := "DeepWiki service temporarily unavailable"
  const QuotaExhausted: string := "API quota exhausted"
  const AuthenticationFailed: string := "API authentication failed"

  /** `_fallback_analysis`: the plain chat call's answer, or its failure with a fixed suggestion. */
  function FallbackAnalysis(c: Client, question: string, chat: Call): (r: Reply)
    ensures r.success <==> chat.Replied?
    ensures r.success ==> r.outputText == Some(chat.text) && r.source == Some("fallback_llm")
    ensures !r.success ==> r.error == Some("Fallback analysis failed: " + chat.message) && r.suggestion.Some?
    ensures r.question == Some(question) && r.model == Some(c.model)
  {
    match chat
    case Replied(t) => Reply(true, Some(t), Some("fallback_llm"), Some(question), Some(c.model), None, None)
    case CallFailed(m) =>
      Reply(false, None, None, Some(question), Some(c.model), Some("Fallback analysis failed: " + m),
            Some("Please check API key settings or network connection"))
  }

  predicate NotFound(message: string)
  {
    Contains(message, "404") || Contains(Lower(message), "page not found")
  }

  predicate OverQuota(message: string)
  {
    Contains(Lower(message), "rate limit") || Contains(Lower(message), "quota")
  }

  predicate Unauthorized(message: string)
  {
    Contains(Lower(message), "authentication") || Contains(Lower(message), "unauthorized")
  }

  /** The handler around `query`: a known kind of failure becomes a fixed message with a suggestion. */
  function MapError(c: Client, question: string, message: string): Reply
  {
    if NotFound(message) then
      Reply(false, None, None, Some(question), Some(c.model), Some(Unavailable), Some("You can retry later or use basic analysis"))
    else if OverQuota(message) then
      Reply(false, None, None, Some(question), Some(c.model), Some(QuotaExhausted), Some("Please check API quota or retry later"))
    else if Unauthorized(message) then
      Reply(false, None, None, Some(question), Some(c.model), Some(AuthenticationFailed), Some("Please check API key settings"))
    else Reply(false, None, None, Some(question), Some(c.model), Some(message), None)
  }

  /**
   * Every mapped error fails; the checks go in order "404"/"page not found",
   * then quota, then authentication; a suggestion comes exactly when one of
   * them matched, and otherwise the raw message is the error.
   */
  lemma MapErrorCases(c: Client, question: string, message: string)
    ensures var r := MapError(c, question, message);
            && !r.success && r.outputText.None? && r.question == Some(question)
            && (NotFound(message) ==> r.error == Some(Unavailable))
            && (!NotFound(message) && OverQuota(message) ==> r.error == Some(QuotaExhausted))
            && (!NotFound(message) && !OverQuota(message) && Unauthorized(message) ==> r.error == Some(AuthenticationFailed))
            && (r.suggestion.None? <==> !NotFound(message) && !OverQuota(message) && !Unauthorized(message))
            && (r.suggestion.None? ==> r.error == Some(message))
  {
  }

  /**
   * `query(question)`: without a key straight to the fallback; otherwise the
   * DeepWiki tool call, and when that fails the fallback if enabled, else
   * the mapped error.
   */
  function Query(c: Client, question: string, tool: Call, chat: Call): (r: Reply)
    ensures r.question == Some(question) && r.model == Some(c.model)
  {
    if !Truthy(c.apiKey) then FallbackAnalysis(c, question, chat)
    else match tool
      case Replied(t) => Reply(true, Some(t), Some("deepwiki"), Some(question), Some(c.model), None, None)
      case CallFailed(m) => if c.fallbackEnabled then FallbackAnalysis(c, question, chat) else MapError(c, question, m)
  }

  /**
   * A query succeeds exactly when the call it made answered: the tool call
   * for a client with a key whose call answered (source "deepwiki"), and
   * the plain chat otherwise (source "fallback_llm"); without a key the
   * tool is never asked. A freshly built client always falls back, so its
   * failures are the fallback's and never a mapped error.
   */
  lemma QueryOutcome(c: Client, question: string, tool: Call, chat: Call)
    ensures var r := Query(c, question, tool, chat);
            && (!Truthy(c.apiKey) ==> r == FallbackAnalysis(c, question, chat))
            && (Truthy(c.apiKey) && tool.Replied? ==> r.success && r.outputText == Some(tool.text) && r.source == Some("deepwiki"))
            && (r.success <==> (Truthy(c.apiKey) && tool.Replied?) || (chat.Replied? && (!Truthy(c.apiKey) || c.fallbackEnabled)))
            && (c.fallbackEnabled && !r.success ==> r.error == Some("Fallback analysis failed: " + chat.message))
  {
  }

  // ---------------------------------------------------------------------
  // Repository analysis (`analyze_repository`)

  /** The dictionary `analyze_repository` returns. */
  datatype RepositoryAnalysis = RepositoryAnalysis(repoUrl: string, repoName: string, model: string, source: string,
                                                   success: bool, analysis: Option<string>, error: Option<string>)

  /** The DeepWiki address for the owner, `repo_url.split('/')[-2]`; none when the address has no '/'. */
  function DeepwikiLink(c: Client, repoUrl: string, repoName: string): (r: Option<string>)
    ensures r.Some? <==> '/' in repoUrl
  {
    var parts := SplitOn(repoUrl, '/');
    if |parts| < 2 then
      assert '/' !in repoUrl by { SplitJoin(repoUrl, '/'); }
      None
    else
      assert '/' in repoUrl by { if '/' !in repoUrl { SplitOnAbsent(repoUrl, '/'); } }
      Some(c.serverUrl + "/" + parts[|parts| - 2] + "/" + repoName)
  }

  /**
   * `analyze_repository`: the analysis call (given the DeepWiki address it
   * scrapes) answers the analysis; any failure, including an address with no
   * owner part, gives the fixed error.
   */
  function AnalyzeRepository(c: Client, repoUrl: string, repoName: string, ask: string -> Call): (r: RepositoryAnalysis)
    ensures r.repoUrl == repoUrl && r.repoName == repoName && r.model == c.model && r.source == "llm_direct_analysis"
    ensures r.success <==> r.analysis.Some?
    ensures !r.success <==> r.error == Some("DeepWiki analysis failed")
    ensures r.success <==> '/' in repoUrl && ask(DeepwikiLink(c, repoUrl, repoName).value).Replied?
  {
    var link := DeepwikiLink(c, repoUrl, repoName);
    var failed := RepositoryAnalysis(repoUrl, repoName, c.model, "llm_direct_analysis", false, None,
                                     Some("DeepWiki analysis failed"));
    if link.None? then failed
    else match ask(link.value)
      case Replied(t) => RepositoryAnalysis(repoUrl, repoName, c.model, "llm_direct_analysis", true, Some(t), None)
      case CallFailed(_) => failed
  }

  // ---------------------------------------------------------------------
  // Summaries (`_summarize_analysis`)

  /** One entry of `key_insights`. */
  datatype Insight = Insight(question: string, insight: string, source: string)

  /** The summary: failed, or the counts, the insights and the set of sources. */
  datatype Summary =
    | SummaryFailed(reason: string)
    | SummaryDone(totalQueries: nat, successfulQueries: nat, keyInsights: seq<Insight>, sources: set<string>)

  /** `r.get("source", "unknown")` */
  function SourceOf(r: Reply): string
  {
    if r.source.Some? then r.source.value else "unknown"
  }

  /** `r.get("output_text", "")` */
  function OutputOf(r: Reply): string
  {
    if r.outputText.Some? then r.outputText.value else ""
  }

  /** The successful results, in order. */
  function Successes(results: seq<Reply>): (r: seq<Reply>)
    ensures |r| <= |results|
    ensures forall x :: x in r <==> x in results && x.success
  {
    if |results| == 0 then []
    else (if results[0].success then [results[0]] else []) + Successes(results[1..])
  }

  /** The insights of the successes in order, one for each with a non-empty output. */
  function Insights(successes: seq<Reply>): (r: seq<Insight>)
  {
    if |successes| == 0 then []
    else
      var s := successes[0];
      var q := if s.question.Some? then s.question.value else "";
      (if OutputOf(s) != "" then [Insight(q, Shorten(OutputOf(s), 200), SourceOf(s))] else []) + Insights(successes[1..])
  }

  /** The number of results with a non-empty output. */
  function WithOutput(results: seq<Reply>): nat
  {
    if |results| == 0 then 0 else (if OutputOf(results[0]) != "" then 1 else 0) + WithOutput(results[1..])
  }

  /** Each insight belongs to one result with output, and is at most 203 characters long. */
  lemma {:induction false} InsightsFromOutputs(successes: seq<Reply>)
    ensures |Insights(successes)| == WithOutput(successes)
    ensures forall i :: 0 <= i < |Insights(successes)| ==>
              |Insights(successes)[i].insight| <= 203 &&
              exists s :: s in successes && OutputOf(s) != "" && SourceOf(s) == Insights(successes)[i].source
  {
    if |successes| > 0 {
      InsightsFromOutputs(successes[1..]);
      var rest := Insights(successes[1..]);
      var head := if OutputOf(successes[0]) != "" then [Insight(if successes[0].question.Some? then successes[0].question.value else "",
                      Shorten(OutputOf(successes[0]), 200), SourceOf(successes[0]))] else [];
      assert Insights(successes) == head + rest;
      forall i | 0 <= i < |Insights(successes)|
        ensures exists s :: s in successes && OutputOf(s) != "" && SourceOf(s) == Insights(successes)[i].source
      {
        if i < |head| {
          assert successes[0] in successes;
        } else {
          assert Insights(successes)[i] == rest[i - |head|];
          var s :| s in successes[1..] && OutputOf(s) != "" && SourceOf(s) == rest[i - |head|].source;
          assert s in successes;
        }
      }
    }
  }

  /** `_summarize_analysis(results)` */
  function SummarizeAnalysis(results: seq<Reply>): Summary
  {
    var successes := Successes(results);
    if |successes| == 0 then SummaryFailed("All queries failed")
    else SummaryDone(|results|, |successes|, Insights(successes), set s | s in successes :: SourceOf(s))
  }

  /**
   * The summary fails exactly when no result succeeded; otherwise it counts
   * every result and the successes, names exactly the sources of the
   * successes, and has one insight per success with a non-empty output.
   */
  lemma SummaryCounts(results: seq<Reply>)
    ensures var r := SummarizeAnalysis(results);
            && (r.SummaryFailed? <==> forall i :: 0 <= i < |results| ==> !results[i].success)
            && (r.SummaryDone? ==>
                  && r.totalQueries == |results| && 0 < r.successfulQueries <= r.totalQueries
                  && r.successfulQueries == |Successes(results)|
                  && |r.keyInsights| == WithOutput(Successes(results)) <= r.successfulQueries
                  && (forall i :: 0 <= i < |r.keyInsights| ==> |r.keyInsights[i].insight| <= 203)
                  && (forall s :: s in r.sources <==> exists x :: x in results && x.success && SourceOf(x) == s))
  {
    var successes := Successes(results);
    InsightsFromOutputs(successes);
    WithOutputBounded(successes);
    if |successes| == 0 {
      forall i | 0 <= i < |results| ensures !results[i].success {
        assert results[i] in results;
      }
    } else {
      assert successes[0] in results;
    }
  }

  lemma {:induction false} WithOutputBounded(results: seq<Reply>)
    ensures WithOutput(results) <= |results|
  {
    if |results| > 0 {
      WithOutputBounded(results[1..]);
    }
  }
}
