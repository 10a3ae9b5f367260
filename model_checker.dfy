/** The server-side model list of server/modelChecker.js: which providers are
    configured, what each can do, and which models
    `checkAvailableModels` reports. The connectivity probes are network calls;
    their results are inputs here. */
module ModelChecker {
  import opened Common

  /** The `process.env` variables the checker reads. */
  datatype CheckerEnv = CheckerEnv(
    vertexApiKey: Option<string>, vertexProjectId: Option<string>,
    geminiProModel: Option<string>, gemini15ProModel: Option<string>,
    anthropicApiKey: Option<string>,
    opusModel: Option<string>, sonnetModel: Option<string>, haikuModel: Option<string>,
    azureApiKey: Option<string>, azureEndpoint: Option<string>, azureDeployment: Option<string>,
    ollamaApiUrl: Option<string>, ollamaModel: Option<string>)

  // ---------------------------------------------------------------------------
  // Providers
  // ---------------------------------------------------------------------------

  /** `isProviderConfigured` */
  predicate IsProviderConfigured(provider: string, env: CheckerEnv)
  {
    if provider == "vertex" then IsSet(env.vertexApiKey) && IsSet(env.vertexProjectId)
    else if provider == "anthropic" then IsSet(env.anthropicApiKey)
    else if provider == "azure" then IsSet(env.azureApiKey) && IsSet(env.azureEndpoint)
    else provider == "ollama" || provider == "custom"
  }

  datatype Capability = Capability(supportsStreaming: bool, maxTokens: nat, rateLimitInfo: string)

  /** `getModelCapabilities` */
  function GetModelCapabilities(): map<string, Capability>
  {
    map[
      "vertex" := Capability(false, 8192, "Quota-based, varies by project"),
      "anthropic" := Capability(true, 200000, "Tier-based rate limits"),
      "azure" := Capability(true, 128000, "Deployment-based quotas"),
      "ollama" := Capability(true, 32768, "No rate limits (local)"),
      "custom" := Capability(false, 1000, "N/A (mock)")]
  }

  /** A provider can be configured only if it has a capability entry, and the
      two local providers need no credentials at all; every other name is
      never configured. */
  lemma ConfiguredHasCapabilities(provider: string, env: CheckerEnv)
    ensures IsProviderConfigured(provider, env) ==> provider in GetModelCapabilities()
    ensures provider in GetModelCapabilities() <==> provider in {"vertex", "anthropic", "azure", "ollama", "custom"}
    ensures IsProviderConfigured("ollama", env) && IsProviderConfigured("custom", env)
    ensures IsProviderConfigured("vertex", env) <==> IsSet(env.vertexApiKey) && IsSet(env.vertexProjectId)
    ensures IsProviderConfigured("anthropic", env) <==> IsSet(env.anthropicApiKey)
    ensures IsProviderConfigured("azure", env) <==> IsSet(env.azureApiKey) && IsSet(env.azureEndpoint)
  {
  }

  /** Only the two hosted chat APIs and Ollama stream; Anthropic has the
      largest context of all. */
  lemma CapabilitiesShape()
    ensures var caps := GetModelCapabilities();
      && (forall p :: p in caps ==> caps[p].maxTokens <= caps["anthropic"].maxTokens)
      && (forall p :: p in caps ==> (caps[p].supportsStreaming <==> p != "vertex" && p != "custom"))
  {
  }

  // ---------------------------------------------------------------------------
  // `checkAvailableModels`
  // ---------------------------------------------------------------------------

  /** The `provider` field of a listed model. */
  datatype Provider = Vertex | Anthropic | Azure | Ollama | Custom

  function ProviderName(p: Provider): string
  {
    match p
    case Vertex => "vertex"
    case Anthropic => "anthropic"
    case Azure => "azure"
    case Ollama => "ollama"
    case Custom => "custom"
  }

  /** The models the checker knows how to list; each fixes an entry's `id`,
      `name`, `provider` and `description`. */
  datatype KnownModel =
    | GeminiPro | Gemini15Pro
    | ClaudeOpus | ClaudeSonnet | ClaudeHaiku
    | AzureGpt4
    | OllamaLlama3 | OllamaMistral
    | MockLlm

  function Id(k: KnownModel): string
  {
    match k
    case GeminiPro => "gemini-pro"
    case Gemini15Pro => "gemini-1.5-pro"
    case ClaudeOpus => "claude-3-opus"
    case ClaudeSonnet => "claude-3-sonnet"
    case ClaudeHaiku => "claude-3-haiku"
    case AzureGpt4 => "azure-gpt4"
    case OllamaLlama3 => "ollama-llama3"
    case OllamaMistral => "ollama-mistral"
    case MockLlm => "mock-llm"
  }

  function Name(k: KnownModel): string
  {
    match k
    case GeminiPro => "Gemini Pro (Vertex AI)"
    case Gemini15Pro => "Gemini 1.5 Pro (Vertex AI)"
    case ClaudeOpus => "Claude 3 Opus (Anthropic)"
    case ClaudeSonnet => "Claude 3 Sonnet (Anthropic)"
    case ClaudeHaiku => "Claude 3 Haiku (Anthropic)"
    case AzureGpt4 => "GPT-4 (Azure)"
    case OllamaLlama3 => "Llama 3.1 (Ollama)"
    case OllamaMistral => "Mistral (Ollama)"
    case MockLlm => "Mock LLM (Demo)"
  }

  function Description(k: KnownModel): string
  {
    match k
    case GeminiPro => "Google Gemini Pro via Vertex AI"
    case Gemini15Pro => "Google Gemini 1.5 Pro via Vertex AI"
    case ClaudeOpus => "Anthropic Claude 3 Opus model"
    case ClaudeSonnet => "Anthropic Claude 3 Sonnet model"
    case ClaudeHaiku => "Anthropic Claude 3 Haiku model (fastest)"
    case AzureGpt4 => "Azure OpenAI GPT-4"
    case OllamaLlama3 => "Llama 3.1 via Ollama (requires Ollama running)"
    case OllamaMistral => "Mistral via Ollama (requires Ollama running)"
    case MockLlm => "Mock LLM for testing without API keys"
  }

  function ProviderOf(k: KnownModel): Provider
  {
    match k
    case GeminiPro | Gemini15Pro => Vertex
    case ClaudeOpus | ClaudeSonnet | ClaudeHaiku => Anthropic
    case AzureGpt4 => Azure
    case OllamaLlama3 | OllamaMistral => Ollama
    case MockLlm => Custom
  }

  /** The vendor model name: an override from the environment, or the default. */
  function ModelName(k: KnownModel, env: CheckerEnv): string
  {
    match k
    case GeminiPro => OrElse(env.geminiProModel, "gemini-pro")
    case Gemini15Pro => OrElse(env.gemini15ProModel, "gemini-1.5-pro")
    case ClaudeOpus => OrElse(env.opusModel, "claude-3-opus-20240229")
    case ClaudeSonnet => OrElse(env.sonnetModel, "claude-3-sonnet-20240229")
    case ClaudeHaiku => OrElse(env.haikuModel, "claude-3-haiku-20240307")
    case AzureGpt4 => OrElse(env.azureDeployment, "gpt-4")
    case OllamaLlama3 => "llama3.1:8b"
    case OllamaMistral => OrElse(env.ollamaModel, "mistral")
    case MockLlm => "mock"
  }

  /** One object of the `models` array. */
  datatype ModelEntry = ModelEntry(known: KnownModel, model: string, enabled: bool, configured: bool, reachable: bool)
  {
    function id(): string { Id(known) }
    function name(): string { Name(known) }
    function provider(): Provider { ProviderOf(known) }
    function description(): string { Description(known) }
  }

  /** The connectivity probe results: one per Vertex model, one shared by the
      three Anthropic models, one for Azure, one shared by both Ollama models. */
  datatype Probes = Probes(geminiPro: bool, gemini15Pro: bool, anthropic: bool, azure: bool, ollama: bool)

  /** An entry as pushed, before its probe has answered. */
  function Pending(k: KnownModel, env: CheckerEnv): ModelEntry
  {
    ModelEntry(k, ModelName(k, env), true, true, false)
  }

  /** The demo model: always listed, always reachable. */
  const MockEntry := ModelEntry(MockLlm, "mock", true, true, true)

  /** What a probe's callback does to its entry. */
  function Probed(e: ModelEntry, ok: bool): ModelEntry
  {
    e.(reachable := ok, enabled := ok)
  }

  predicate VertexListed(env: CheckerEnv) { IsSet(env.vertexApiKey) && IsSet(env.vertexProjectId) }
  predicate AnthropicListed(env: CheckerEnv) { IsSet(env.anthropicApiKey) }
  predicate AzureListed(env: CheckerEnv) { IsSet(env.azureApiKey) && IsSet(env.azureEndpoint) }

  function VertexOrder(env: CheckerEnv): seq<KnownModel> { if VertexListed(env) then [GeminiPro, Gemini15Pro] else [] }
  function AnthropicOrder(env: CheckerEnv): seq<KnownModel> { if AnthropicListed(env) then [ClaudeOpus, ClaudeSonnet, ClaudeHaiku] else [] }
  function AzureOrder(env: CheckerEnv): seq<KnownModel> { if AzureListed(env) then [AzureGpt4] else [] }

  /** The models pushed, in push order. */
  function ListedOrder(env: CheckerEnv): seq<KnownModel>
  {
    VertexOrder(env) + AnthropicOrder(env) + AzureOrder(env) + [OllamaLlama3, OllamaMistral, MockLlm]
  }

  /** Whether a model is pushed at all. */
  predicate Pushed(k: KnownModel, env: CheckerEnv)
  {
    match k
    case GeminiPro | Gemini15Pro => VertexListed(env)
    case ClaudeOpus | ClaudeSonnet | ClaudeHaiku => AnthropicListed(env)
    case AzureGpt4 => AzureListed(env)
    case OllamaLlama3 | OllamaMistral | MockLlm => true
  }

  lemma PushedListed(k: KnownModel, env: CheckerEnv)
    ensures k in ListedOrder(env) <==> Pushed(k, env)
  {
    assert k in ListedOrder(env) <==> k in VertexOrder(env) || k in AnthropicOrder(env) || k in AzureOrder(env)
                                      || k in [OllamaLlama3, OllamaMistral, MockLlm];
  }

  /** The probe whose callback sets a model's flags: each Vertex model has its
      own, the Anthropic models share one, as do the Ollama models. */
  function ProbeFor(k: KnownModel, p: Probes): bool
    requires k != MockLlm
  {
    match k
    case GeminiPro => p.geminiPro
    case Gemini15Pro => p.gemini15Pro
    case ClaudeOpus | ClaudeSonnet | ClaudeHaiku => p.anthropic
    case AzureGpt4 => p.azure
    case OllamaLlama3 | OllamaMistral => p.ollama
  }

  /** A model's entry once every probe has answered. */
  function Settled(k: KnownModel, env: CheckerEnv, p: Probes): ModelEntry
  {
    if k == MockLlm then MockEntry else Probed(Pending(k, env), ProbeFor(k, p))
  }

  function Entries(ks: seq<KnownModel>, env: CheckerEnv, p: Probes): seq<ModelEntry>
  {
    if ks == [] then [] else Entries(ks[..|ks| - 1], env, p) + [Settled(ks[|ks| - 1], env, p)]
  }

  /** Every entry after all probes have answered, in the order pushed. */
  function Listed(env: CheckerEnv, p: Probes): seq<ModelEntry>
  {
    Entries(ListedOrder(env), env, p)
  }

  /** `models.filter(m => m.enabled)` */
  function EnabledOnly(ms: seq<ModelEntry>): seq<ModelEntry>
  {
    if ms == [] then []
    else EnabledOnly(ms[..|ms| - 1]) + (if ms[|ms| - 1].enabled then [ms[|ms| - 1]] else [])
  }

  /** The filter keeps exactly the enabled entries. */
  lemma {:induction false} EnabledOnlyMembers(ms: seq<ModelEntry>, x: ModelEntry)
    ensures x in EnabledOnly(ms) <==> x in ms && x.enabled
  {
    if ms != [] {
      EnabledOnlyMembers(ms[..|ms| - 1], x);
      assert ms == ms[..|ms| - 1] + [ms[|ms| - 1]];
    }
  }

  /** The filter keeps the order: filtering a concatenation concatenates the
      filtered parts. */
  lemma {:induction false} EnabledOnlyAppend(a: seq<ModelEntry>, b: seq<ModelEntry>)
    ensures EnabledOnly(a + b) == EnabledOnly(a) + EnabledOnly(b)
  {
    if b == [] {
      assert a + b == a;
    } else {
      var b' := b[..|b| - 1];
      assert (a + b)[..|a + b| - 1] == a + b';
      EnabledOnlyAppend(a, b');
    }
  }

  /** A pushed object before its probe answers. */
  function Initial(k: KnownModel, env: CheckerEnv): ModelEntry
  {
    if k == MockLlm then MockEntry else Pending(k, env)
  }

  /** The objects pushed for a sequence of models. */
  function Initials(ks: seq<KnownModel>, env: CheckerEnv): (r: seq<ModelEntry>)
    ensures |r| == |ks|
  {
    if ks == [] then [] else Initials(ks[..|ks| - 1], env) + [Initial(ks[|ks| - 1], env)]
  }

  lemma {:induction false} InitialsAt(ks: seq<KnownModel>, env: CheckerEnv, j: nat)
    requires j < |ks|
    ensures Initials(ks, env)[j] == Initial(ks[j], env)
  {
    if j < |ks| - 1 {
      InitialsAt(ks[..|ks| - 1], env, j);
    }
  }

  lemma InitialsSnoc(ks: seq<KnownModel>, k: KnownModel, env: CheckerEnv)
    ensures Initials(ks + [k], env) == Initials(ks, env) + [Initial(k, env)]
  {
    assert (ks + [k])[..|ks|] == ks;
  }

  /** `models.push(obj)`, with the model it stands for recorded in `order`. */
  method Push(models: seq<ModelEntry>, ghost order: seq<KnownModel>, k: KnownModel, env: CheckerEnv)
    returns (models': seq<ModelEntry>, ghost order': seq<KnownModel>)
    requires models == Initials(order, env)
    ensures order' == order + [k]
    ensures models' == Initials(order', env)
  {
    InitialsSnoc(order, k, env);
    models' := models + [Initial(k, env)];
    order' := order + [k];
  }

  /** Lines 91-123: the two Gemini objects when Vertex AI is configured. */
  method PushVertex(models: seq<ModelEntry>, ghost order: seq<KnownModel>, env: CheckerEnv)
    returns (models': seq<ModelEntry>, ghost order': seq<KnownModel>)
    requires models == Initials(order, env)
    ensures order' == order + VertexOrder(env)
    ensures models' == Initials(order', env)
  {
    models', order' := models, order;
    if IsSet(env.vertexApiKey) && IsSet(env.vertexProjectId) {
      models', order' := Push(models', order', GeminiPro, env);
      models', order' := Push(models', order', Gemini15Pro, env);
    }
  }

  /** Lines 125-164: the three Claude objects when an Anthropic key is set. */
  method PushAnthropic(models: seq<ModelEntry>, ghost order: seq<KnownModel>, env: CheckerEnv)
    returns (models': seq<ModelEntry>, ghost order': seq<KnownModel>)
    requires models == Initials(order, env)
    ensures order' == order + AnthropicOrder(env)
    ensures models' == Initials(order', env)
  {
    models', order' := models, order;
    if IsSet(env.anthropicApiKey) {
      models', order' := Push(models', order', ClaudeOpus, env);
      models', order' := Push(models', order', ClaudeSonnet, env);
      models', order' := Push(models', order', ClaudeHaiku, env);
    }
  }

  /** Lines 166-185: the GPT-4 object when Azure OpenAI is configured. */
  method PushAzure(models: seq<ModelEntry>, ghost order: seq<KnownModel>, env: CheckerEnv)
    returns (models': seq<ModelEntry>, ghost order': seq<KnownModel>)
    requires models == Initials(order, env)
    ensures order' == order + AzureOrder(env)
    ensures models' == Initials(order', env)
  {
    models', order' := models, order;
    if IsSet(env.azureApiKey) && IsSet(env.azureEndpoint) {
      models', order' := Push(models', order', AzureGpt4, env);
    }
  }

  /** Lines 187-228: the two Ollama objects and the mock, always. */
  method PushLocal(models: seq<ModelEntry>, ghost order: seq<KnownModel>, env: CheckerEnv)
    returns (models': seq<ModelEntry>, ghost order': seq<KnownModel>)
    requires models == Initials(order, env)
    ensures order' == order + [OllamaLlama3, OllamaMistral, MockLlm]
    ensures models' == Initials(order', env)
  {
    models', order' := Push(models, order, OllamaLlama3, env);
    models', order' := Push(models', order', OllamaMistral, env);
    models', order' := Push(models', order', MockLlm, env);
  }

  /** The pushes of `checkAvailableModels`: each configured provider's
      objects, then Ollama's, then the mock. */
  method PushModels(env: CheckerEnv) returns (models: seq<ModelEntry>)
    ensures models == Initials(ListedOrder(env), env)
  {
    ghost var order: seq<KnownModel> := [];
    models := [];
    models, order := PushVertex(models, order, env);
    models, order := PushAnthropic(models, order, env);
    models, order := PushAzure(models, order, env);
    models, order := PushLocal(models, order, env);
    assert order == ListedOrder(env);
  }

  /** `await Promise.all(checks)`: every object receives the answer of the
      probe whose callback holds it; the mock has no probe. */
  method AwaitProbes(models: seq<ModelEntry>, probes: Probes) returns (settled: seq<ModelEntry>)
    ensures |settled| == |models|
    ensures forall j :: 0 <= j < |models| ==>
      settled[j] == (if models[j].known == MockLlm then models[j] else Probed(models[j], ProbeFor(models[j].known, probes)))
  {
    settled := models;
    var j := 0;
    while j < |settled|
      invariant 0 <= j <= |settled| == |models|
      invariant forall i :: 0 <= i < j ==>
        settled[i] == (if models[i].known == MockLlm then models[i] else Probed(models[i], ProbeFor(models[i].known, probes)))
      invariant forall i :: j <= i < |models| ==> settled[i] == models[i]
    {
      if settled[j].known != MockLlm {
        settled := settled[j := Probed(settled[j], ProbeFor(settled[j].known, probes))];
      }
      j := j + 1;
    }
  }

  /** `models.filter(m => m.enabled)` */
  method KeepEnabled(models: seq<ModelEntry>) returns (available: seq<ModelEntry>)
    ensures available == EnabledOnly(models)
  {
    available := [];
    var k := 0;
    while k < |models|
      invariant 0 <= k <= |models|
      invariant available == EnabledOnly(models[..k])
    {
      assert models[..k + 1][..k] == models[..k];
      if models[k].enabled {
        available := available + [models[k]];
      }
      k := k + 1;
    }
    assert models[..k] == models;
  }

  /** `checkAvailableModels`: push the objects of every configured provider,
      let the probes answer, keep the enabled ones. */
  method CheckAvailableModels(env: CheckerEnv, probes: Probes) returns (available: seq<ModelEntry>)
    ensures available == EnabledOnly(Listed(env, probes))
  {
    var models := PushModels(env);
    models := AwaitProbes(models, probes);
    available := KeepEnabled(models);
    SettledEntries(ListedOrder(env), env, probes, models);
  }

  lemma {:induction false} SettledEntries(ks: seq<KnownModel>, env: CheckerEnv, p: Probes, settled: seq<ModelEntry>)
    requires |settled| == |ks|
    requires forall j :: 0 <= j < |ks| ==> settled[j] == (if Initials(ks, env)[j].known == MockLlm then Initials(ks, env)[j]
                                                          else Probed(Initials(ks, env)[j], ProbeFor(Initials(ks, env)[j].known, p)))
    ensures settled == Entries(ks, env, p)
  {
    if ks != [] {
      var n := |ks| - 1;
      forall j | 0 <= j < n
        ensures settled[..n][j] == (if Initials(ks[..n], env)[j].known == MockLlm then Initials(ks[..n], env)[j]
                                    else Probed(Initials(ks[..n], env)[j], ProbeFor(Initials(ks[..n], env)[j].known, p)))
      {
        InitialsAt(ks, env, j);
        InitialsAt(ks[..n], env, j);
      }
      SettledEntries(ks[..n], env, p, settled[..n]);
      InitialsAt(ks, env, n);
      assert settled == settled[..n] + [settled[n]];
    }
  }

  // ---------------------------------------------------------------------------
  // What the list guarantees
  // ---------------------------------------------------------------------------

  /** The mock model is always the last entry reported, reachable and enabled,
      so the list is never empty. */
  lemma MockAlwaysAvailable(env: CheckerEnv, p: Probes)
    ensures var available := EnabledOnly(Listed(env, p));
      |available| > 0 && available[|available| - 1] == MockEntry && MockEntry.reachable
  {
    var order := ListedOrder(env);
    assert order[..|order| - 1] + [MockLlm] == order;
    var l := Listed(env, p);
    assert l == Entries(order[..|order| - 1], env, p) + [MockEntry];
    EnabledOnlyAppend(Entries(order[..|order| - 1], env, p), [MockEntry]);
    assert EnabledOnly([MockEntry]) == [MockEntry] by {
      assert [MockEntry][..0] == [];
    }
  }

  /** Every entry comes from one of the pushed models. */
  lemma {:induction false} EntriesFrom(ks: seq<KnownModel>, env: CheckerEnv, p: Probes, e: ModelEntry)
    requires e in Entries(ks, env, p)
    ensures e.known in ks && e == Settled(e.known, env, p)
  {
    if e != Settled(ks[|ks| - 1], env, p) {
      EntriesFrom(ks[..|ks| - 1], env, p, e);
    }
  }

  /** What an entry of a listed model records about its probe. */
  predicate ProbeRecorded(e: ModelEntry, p: Probes)
  {
    && e.reachable == e.enabled
    && e.configured
    && (e.provider() == Anthropic ==> e.enabled == p.anthropic)
    && (e.provider() == Azure ==> e.enabled == p.azure)
    && (e.provider() == Ollama ==> e.enabled == p.ollama)
    && (e.provider() == Vertex ==> e.enabled == (if e.known == GeminiPro then p.geminiPro else p.gemini15Pro))
    && (e.provider() == Custom ==> e.enabled && e.reachable)
  }

  /** After the probes, every entry's `reachable` equals its `enabled`, and
      both equal its provider's probe: the Anthropic models share one probe,
      the Ollama models another, and each Vertex model has its own. */
  lemma ProbeDecides(env: CheckerEnv, p: Probes)
    ensures forall e :: e in Listed(env, p) ==> ProbeRecorded(e, p)
  {
    forall e | e in Listed(env, p)
      ensures ProbeRecorded(e, p)
    {
      EntriesFrom(ListedOrder(env), env, p, e);
    }
  }

  /** Every listed model belongs to a configured provider: the Vertex models
      appear only with both key and project, Azure only with key and endpoint,
      Anthropic only with its key. */
  lemma ListedProvidersConfigured(env: CheckerEnv, p: Probes)
    ensures forall e :: e in Listed(env, p) ==> IsProviderConfigured(ProviderName(e.provider()), env)
    ensures |Listed(env, p)| == (if VertexListed(env) then 2 else 0) + (if AnthropicListed(env) then 3 else 0)
                                + (if AzureListed(env) then 1 else 0) + 3
  {
    forall e | e in Listed(env, p)
      ensures IsProviderConfigured(ProviderName(e.provider()), env)
    {
      EntriesFrom(ListedOrder(env), env, p, e);
      ListedModelConfigured(e.known, env);
    }
    EntriesLength(ListedOrder(env), env, p);
  }

  /** A model is pushed only when its provider is configured. */
  lemma ListedModelConfigured(k: KnownModel, env: CheckerEnv)
    requires k in ListedOrder(env)
    ensures IsProviderConfigured(ProviderName(ProviderOf(k)), env)
  {
    match ProviderOf(k)
    case Vertex => assert VertexListed(env);
    case Anthropic => assert AnthropicListed(env);
    case Azure => assert AzureListed(env);
    case Ollama =>
    case Custom =>
  }

  lemma {:induction false} EntriesLength(ks: seq<KnownModel>, env: CheckerEnv, p: Probes)
    ensures |Entries(ks, env, p)| == |ks|
  {
    if ks != [] {
      EntriesLength(ks[..|ks| - 1], env, p);
    }
  }

  /** The reported models are exactly the listed ones that are enabled; when
      every probe succeeds, every listed model is reported, in order. */
  lemma ReportedAreEnabled(env: CheckerEnv, p: Probes)
    ensures forall e :: e in EnabledOnly(Listed(env, p)) <==> e in Listed(env, p) && e.enabled
    ensures p == Probes(true, true, true, true, true) ==> EnabledOnly(Listed(env, p)) == Listed(env, p)
  {
    forall e | true
      ensures e in EnabledOnly(Listed(env, p)) <==> e in Listed(env, p) && e.enabled
    {
      EnabledOnlyMembers(Listed(env, p), e);
    }
    if p == Probes(true, true, true, true, true) {
      forall k | 0 <= k < |Listed(env, p)|
        ensures Listed(env, p)[k].enabled
      {
        EntriesFrom(ListedOrder(env), env, p, Listed(env, p)[k]);
      }
      AllEnabledKept(Listed(env, p));
    }
  }

  lemma {:induction false} AllEnabledKept(ms: seq<ModelEntry>)
    requires forall k :: 0 <= k < |ms| ==> ms[k].enabled
    ensures EnabledOnly(ms) == ms
  {
    if ms != [] {
      AllEnabledKept(ms[..|ms| - 1]);
      assert ms[..|ms| - 1] + [ms[|ms| - 1]] == ms;
    }
  }
}
