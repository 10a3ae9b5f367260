/** The browser-side model registry of src/config/models.config.ts: the fixed
    `MODELS` table, whose keys, URLs and enabled flags come from the Vite
    environment, and the three lookups over it. */
module ModelsConfig {
  import opened Common

  /** The `import.meta.env` variables the table reads. */
  datatype ViteEnv = ViteEnv(
    openAiApiKey: Option<string>,
    anthropicApiKey: Option<string>,
    ollamaApiUrl: Option<string>,
    azureEndpoint: Option<string>,
    azureApiKey: Option<string>,
    azureDeployment: Option<string>)

  datatype ProviderKind = OpenAI | Anthropic | Ollama | Azure | Custom

  /** The wire formats `callLLM` dispatches on; "vertex" is one of its cases
      although no table entry uses it. */
  datatype RequestFormat = VertexFormat | OpenAIFormat | AnthropicFormat | OllamaFormat | CustomFormat

  /** `ModelConfig`; optional fields are `Option`s. */
  datatype ModelConfig = ModelConfig(
    id: string,
    name: string,
    provider: ProviderKind,
    apiUrl: string,
    apiKey: Option<string>,
    model: string,
    enabled: bool,
    description: Option<string>,
    headers: Option<map<string, string>>,
    requestFormat: Option<RequestFormat>)

  // ---------------------------------------------------------------------------
  // The MODELS table
  // ---------------------------------------------------------------------------

  /** The nine rows of `MODELS`, in table order. */
  datatype Entry = Gpt4 | Gpt35Turbo | Claude3Opus | Claude3Sonnet
                 | OllamaLlama2 | OllamaMistral | OllamaCodeLlama | AzureGpt4 | MockLlm

  const TableOrder: seq<Entry> :=
    [Gpt4, Gpt35Turbo, Claude3Opus, Claude3Sonnet, OllamaLlama2, OllamaMistral, OllamaCodeLlama, AzureGpt4, MockLlm]

  function Id(e: Entry): string
  {
    match e
    case Gpt4 => "gpt-4"
    case Gpt35Turbo => "gpt-3.5-turbo"
    case Claude3Opus => "claude-3-opus"
    case Claude3Sonnet => "claude-3-sonnet"
    case OllamaLlama2 => "ollama-llama2"
    case OllamaMistral => "ollama-mistral"
    case OllamaCodeLlama => "ollama-codellama"
    case AzureGpt4 => "azure-gpt4"
    case MockLlm => "mock-llm"
  }

  function Name(e: Entry): string
  {
    match e
    case Gpt4 => "GPT-4 (OpenAI)"
    case Gpt35Turbo => "GPT-3.5 Turbo (OpenAI)"
    case Claude3Opus => "Claude 3 Opus (Anthropic)"
    case Claude3Sonnet => "Claude 3 Sonnet (Anthropic)"
    case OllamaLlama2 => "Llama 2 (Ollama)"
    case OllamaMistral => "Mistral (Ollama)"
    case OllamaCodeLlama => "Code Llama (Ollama)"
    case AzureGpt4 => "GPT-4 (Azure)"
    case MockLlm => "Mock LLM (Demo)"
  }

  function Description(e: Entry): string
  {
    match e
    case Gpt4 => "OpenAI GPT-4 model"
    case Gpt35Turbo => "OpenAI GPT-3.5 Turbo model"
    case Claude3Opus => "Anthropic Claude 3 Opus model"
    case Claude3Sonnet => "Anthropic Claude 3 Sonnet model"
    case OllamaLlama2 => "Llama 2 via Ollama"
    case OllamaMistral => "Mistral via Ollama"
    case OllamaCodeLlama => "Code Llama via Ollama"
    case AzureGpt4 => "Azure OpenAI GPT-4"
    case MockLlm => "Mock LLM for testing without API keys"
  }

  function ProviderOf(e: Entry): ProviderKind
  {
    match e
    case Gpt4 | Gpt35Turbo => OpenAI
    case Claude3Opus | Claude3Sonnet => Anthropic
    case OllamaLlama2 | OllamaMistral | OllamaCodeLlama => Ollama
    case AzureGpt4 => Azure
    case MockLlm => Custom
  }

  function FormatOf(e: Entry): RequestFormat
  {
    match e
    case Gpt4 | Gpt35Turbo | AzureGpt4 => OpenAIFormat
    case Claude3Opus | Claude3Sonnet => AnthropicFormat
    case OllamaLlama2 | OllamaMistral | OllamaCodeLlama => OllamaFormat
    case MockLlm => CustomFormat
  }

  const OpenAIUrl := "https://api.openai.com/v1/chat/completions"
  const AnthropicUrl := "https://api.anthropic.com/v1/messages"
  const LocalOllamaUrl := "http://localhost:11434/api/chat"

  function ApiUrl(e: Entry, env: ViteEnv): string
  {
    match ProviderOf(e)
    case OpenAI => OpenAIUrl
    case Anthropic => AnthropicUrl
    case Ollama => OrElse(env.ollamaApiUrl, LocalOllamaUrl)
    case Azure => OrElse(env.azureEndpoint, "")
    case Custom => ""
  }

  /** `apiKey: <var> || ''`; the Ollama and mock rows have no key. */
  function ApiKey(e: Entry, env: ViteEnv): Option<string>
  {
    match ProviderOf(e)
    case OpenAI => Some(OrElse(env.openAiApiKey, ""))
    case Anthropic => Some(OrElse(env.anthropicApiKey, ""))
    case Azure => Some(OrElse(env.azureApiKey, ""))
    case Ollama => None
    case Custom => None
  }

  function ModelName(e: Entry, env: ViteEnv): string
  {
    match e
    case Gpt4 => "gpt-4"
    case Gpt35Turbo => "gpt-3.5-turbo"
    case Claude3Opus => "claude-3-opus-20240229"
    case Claude3Sonnet => "claude-3-sonnet-20240229"
    case OllamaLlama2 => "llama2"
    case OllamaMistral => "mistral"
    case OllamaCodeLlama => "codellama"
    case AzureGpt4 => OrElse(env.azureDeployment, "gpt-4")
    case MockLlm => "mock"
  }

  /** `enabled: !!<var>`, both Azure variables for Azure, always for the mock. */
  predicate Enabled(e: Entry, env: ViteEnv)
  {
    match ProviderOf(e)
    case OpenAI => IsSet(env.openAiApiKey)
    case Anthropic => IsSet(env.anthropicApiKey)
    case Ollama => IsSet(env.ollamaApiUrl)
    case Azure => IsSet(env.azureEndpoint) && IsSet(env.azureApiKey)
    case Custom => true
  }

  function Headers(e: Entry, env: ViteEnv): Option<map<string, string>>
  {
    match ProviderOf(e)
    case Anthropic => Some(map["anthropic-version" := "2023-06-01"])
    case Azure => Some(map["api-key" := OrElse(env.azureApiKey, "")])
    case _ => None
  }

  /** One row of `MODELS`. */
  function Config(e: Entry, env: ViteEnv): ModelConfig
  {
    ModelConfig(Id(e), Name(e), ProviderOf(e), ApiUrl(e, env), ApiKey(e, env), ModelName(e, env),
                Enabled(e, env), Some(Description(e)), Headers(e, env), Some(FormatOf(e)))
  }

  function ConfigsOf(es: seq<Entry>, env: ViteEnv): (r: seq<ModelConfig>)
    ensures |r| == |es|
    ensures forall i :: 0 <= i < |es| ==> r[i] == Config(es[i], env)
  {
    if es == [] then [] else [Config(es[0], env)] + ConfigsOf(es[1..], env)
  }

  /** `MODELS` */
  function Models(env: ViteEnv): (r: seq<ModelConfig>)
    ensures |r| == |TableOrder|
  {
    ConfigsOf(TableOrder, env)
  }

  // ---------------------------------------------------------------------------
  // The lookups
  // ---------------------------------------------------------------------------

  /** `Array.prototype.filter(model => model.enabled)` */
  function KeepEnabled(ms: seq<ModelConfig>): (r: seq<ModelConfig>)
    ensures |r| <= |ms|
    ensures forall m :: m in r <==> m in ms && m.enabled
  {
    if ms == [] then []
    else if ms[0].enabled then [ms[0]] + KeepEnabled(ms[1..])
    else KeepEnabled(ms[1..])
  }

  /** `getAvailableModels` */
  function GetAvailableModels(env: ViteEnv): seq<ModelConfig>
  {
    KeepEnabled(Models(env))
  }

  /** `Array.prototype.find(model => model.id === id)` */
  function FindById(ms: seq<ModelConfig>, id: string): (r: Option<ModelConfig>)
    ensures r.Some? ==> r.value in ms && r.value.id == id
    ensures r.None? <==> forall m :: m in ms ==> m.id != id
    ensures r.Some? ==> exists i :: 0 <= i < |ms| && ms[i] == r.value && forall j :: 0 <= j < i ==> ms[j].id != id
  {
    if ms == [] then None
    else if ms[0].id == id then Some(ms[0])
    else FindById(ms[1..], id)
  }

  /** `getModelById` */
  function GetModelById(id: string, env: ViteEnv): Option<ModelConfig>
  {
    FindById(Models(env), id)
  }

  /** `getDefaultModel`: the first available model, else the last row. */
  function GetDefaultModel(env: ViteEnv): ModelConfig
  {
    var available := GetAvailableModels(env);
    if |available| > 0 then available[0] else Models(env)[|Models(env)| - 1]
  }

  // ---------------------------------------------------------------------------
  // What the registry guarantees
  // ---------------------------------------------------------------------------

  /** When the last row is enabled the filter keeps something, and its first
      element is the first enabled row. */
  lemma {:induction false} FirstKept(ms: seq<ModelConfig>)
    requires ms != [] && ms[|ms| - 1].enabled
    ensures KeepEnabled(ms) != []
    ensures exists i :: 0 <= i < |ms| && ms[i] == KeepEnabled(ms)[0] && forall j :: 0 <= j < i ==> !ms[j].enabled
  {
    if !ms[0].enabled {
      FirstKept(ms[1..]);
      var i :| 0 <= i < |ms[1..]| && ms[1..][i] == KeepEnabled(ms[1..])[0] && forall j :: 0 <= j < i ==> !ms[1..][j].enabled;
      assert ms[i + 1] == KeepEnabled(ms)[0];
      assert forall j :: 0 <= j < i + 1 ==> !ms[j].enabled by {
        forall j | 0 < j < i + 1 ensures !ms[j].enabled { assert ms[j] == ms[1..][j - 1]; }
      }
    }
  }

  /** The filter keeps table order: filtering a concatenation filters each
      part and concatenates the results. */
  lemma {:induction false} KeepEnabledAppend(a: seq<ModelConfig>, b: seq<ModelConfig>)
    ensures KeepEnabled(a + b) == KeepEnabled(a) + KeepEnabled(b)
  {
    if a == [] {
      assert a + b == b;
    } else {
      assert (a + b)[0] == a[0];
      assert (a + b)[1..] == a[1..] + b;
      KeepEnabledAppend(a[1..], b);
    }
  }

  /** `getAvailableModels` returns exactly the enabled rows, in table order:
      the enabled rows before any cut come before those after it. */
  lemma AvailableAreEnabledRows(env: ViteEnv, k: nat)
    requires k <= |Models(env)|
    ensures forall m :: m in GetAvailableModels(env) <==> m in Models(env) && m.enabled
    ensures GetAvailableModels(env) == KeepEnabled(Models(env)[..k]) + KeepEnabled(Models(env)[k..])
  {
    KeepEnabledAppend(Models(env)[..k], Models(env)[k..]);
    assert Models(env)[..k] + Models(env)[k..] == Models(env);
  }

  /** No two rows share an id. */
  lemma IdsDistinct(e1: Entry, e2: Entry)
    ensures Id(e1) == Id(e2) ==> e1 == e2
  {
  }

  /** In a table with distinct ids, `find` by a row's own id returns that row. */
  lemma {:induction false} FindOwnId(ms: seq<ModelConfig>, i: nat)
    requires i < |ms|
    requires forall a, b :: 0 <= a < b < |ms| ==> ms[a].id != ms[b].id
    ensures FindById(ms, ms[i].id) == Some(ms[i])
  {
    if i > 0 {
      assert ms[0].id != ms[i].id;
      FindOwnId(ms[1..], i - 1);
    }
  }

  /** A row's place in the table. */
  function Position(e: Entry): nat
  {
    match e
    case Gpt4 => 0
    case Gpt35Turbo => 1
    case Claude3Opus => 2
    case Claude3Sonnet => 3
    case OllamaLlama2 => 4
    case OllamaMistral => 5
    case OllamaCodeLlama => 6
    case AzureGpt4 => 7
    case MockLlm => 8
  }

  /** Each row appears in the table once, at its own place. */
  lemma TablePositions(i: nat)
    requires i < |TableOrder|
    ensures Position(TableOrder[i]) == i
  {
  }

  /** The table's ids are pairwise distinct. */
  lemma TableIdsDistinct(env: ViteEnv)
    ensures forall a, b :: 0 <= a < b < |Models(env)| ==> Models(env)[a].id != Models(env)[b].id
  {
    var ms := Models(env);
    forall a, b | 0 <= a < b < |ms|
      ensures ms[a].id != ms[b].id
    {
      IdsDistinct(TableOrder[a], TableOrder[b]);
      TablePositions(a);
      TablePositions(b);
    }
  }

  /** `getModelById(m.id)` is `m` for every row. */
  lemma LookupByOwnId(env: ViteEnv, i: nat)
    requires i < |Models(env)|
    ensures GetModelById(Models(env)[i].id, env) == Some(Models(env)[i])
  {
    TableIdsDistinct(env);
    FindOwnId(Models(env), i);
  }

  /** An id that no row has finds nothing. */
  lemma LookupUnknownId(env: ViteEnv, id: string)
    requires forall e :: Id(e) != id
    ensures GetModelById(id, env).None?
  {
    var ms := Models(env);
    forall m | m in ms
      ensures m.id != id
    {
      var i :| 0 <= i < |ms| && ms[i] == m;
      assert m.id == Id(TableOrder[i]);
    }
  }

  /** The last row is the mock, and it is enabled whatever the environment. */
  lemma MockAlwaysEnabled(env: ViteEnv)
    ensures var last := Models(env)[|Models(env)| - 1];
      last.id == "mock-llm" && last.provider == Custom && last.model == "mock" && last.enabled
  {
    assert TableOrder[8] == MockLlm;
  }

  /** `getDefaultModel` is always an enabled row: the first available one,
      which exists because the mock is never disabled. */
  lemma DefaultIsFirstEnabled(env: ViteEnv)
    ensures var d := GetDefaultModel(env);
      && d.enabled && d in Models(env)
      && exists i :: 0 <= i < |Models(env)| && Models(env)[i] == d
           && forall j :: 0 <= j < i ==> !Models(env)[j].enabled
  {
    MockAlwaysEnabled(env);
    FirstKept(Models(env));
  }

  /** Each row is enabled exactly when its provider's variables are set:
      the OpenAI, Anthropic and Ollama rows on their one variable, the Azure
      row on both endpoint and key, the mock always. */
  lemma EnabledByProvider(env: ViteEnv)
    ensures forall m :: m in Models(env) ==>
      && (m.provider == OpenAI ==> (m.enabled <==> IsSet(env.openAiApiKey)))
      && (m.provider == Anthropic ==> (m.enabled <==> IsSet(env.anthropicApiKey)))
      && (m.provider == Ollama ==> (m.enabled <==> IsSet(env.ollamaApiUrl)))
      && (m.provider == Azure ==> (m.enabled <==> IsSet(env.azureEndpoint) && IsSet(env.azureApiKey)))
      && (m.provider == Custom ==> m.enabled)
  {
    forall m | m in Models(env)
      ensures exists e :: m == Config(e, env)
    {
      var i :| 0 <= i < |Models(env)| && Models(env)[i] == m;
      assert m == Config(TableOrder[i], env);
    }
  }
}
