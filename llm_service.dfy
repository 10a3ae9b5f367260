/** The browser-side chat client of src/services/llmService.ts: which vendor a
    configured model is sent to, how the OpenAI/Azure request is addressed,
    what text is taken from the reply, how a failure is turned into an
    answer, and the keyword mock used when no vendor is called. The vendors'
    replies are inputs. */
module LlmService {
  import opened Common
  import opened Text
  import opened ModelsConfig

  /** `LLMResponse` */
  datatype LLMResponse = LLMResponse(response: string, error: Option<string>)

  // ---------------------------------------------------------------------------
  // `mockLLMResponse`
  // ---------------------------------------------------------------------------

  datatype MockTopic = Catalog | Prices | Delivery | Greeting | Fallback

  const CatalogWords: seq<string> := ["product", "catalog"]
  const PriceWords: seq<string> := ["price", "cost"]
  const DeliveryWords: seq<string> := ["shipping", "delivery"]
  const GreetingWords: seq<string> := ["hello", "hi"]

  /** The first keyword group, in this order, with a word in the lower-cased prompt. */
  function MockTopicOf(prompt: string): MockTopic
  {
    var lower := Lower(prompt);
    if ContainsAny(lower, CatalogWords) then Catalog
    else if ContainsAny(lower, PriceWords) then Prices
    else if ContainsAny(lower, DeliveryWords) then Delivery
    else if ContainsAny(lower, GreetingWords) then Greeting
    else Fallback
  }

  function MockText(t: MockTopic): string
  {
    match t
    case Catalog => "We have a great selection of products! Check out our catalog page to browse our latest items including t-shirts, hoodies, and accessories."
    case Prices => "Our products range from $20 to $80. Would you like to see specific items in your price range?"
    case Delivery => "We offer free shipping on orders over $50. Standard delivery takes 3-5 business days."
    case Greeting => "Hello! How can I help you with your shopping today?"
    case Fallback => "I'm here to help! Feel free to ask about our products, prices, or shipping options. This is a demo response since no LLM is configured."
  }

  /** `mockLLMResponse` */
  function MockLLMResponse(prompt: string): (r: LLMResponse)
    ensures r.error.None?
  {
    LLMResponse(MockText(MockTopicOf(prompt)), None)
  }

  /** The first keyword group wins: the mock answers with a group's text
      exactly when one of that group's words occurs in the lower-cased prompt
      and no word of an earlier group does. */
  lemma MockTopicPriority(prompt: string)
    ensures var lower := Lower(prompt);
      var catalog := Contains(lower, "product") || Contains(lower, "catalog");
      var prices := Contains(lower, "price") || Contains(lower, "cost");
      var delivery := Contains(lower, "shipping") || Contains(lower, "delivery");
      var greeting := Contains(lower, "hello") || Contains(lower, "hi");
      && (MockTopicOf(prompt) == Catalog <==> catalog)
      && (MockTopicOf(prompt) == Prices <==> !catalog && prices)
      && (MockTopicOf(prompt) == Delivery <==> !catalog && !prices && delivery)
      && (MockTopicOf(prompt) == Greeting <==> !catalog && !prices && !delivery && greeting)
      && (MockTopicOf(prompt) == Fallback <==> !catalog && !prices && !delivery && !greeting)
  {
    var lower := Lower(prompt);
    PairWords(lower, "product", "catalog");
    PairWords(lower, "price", "cost");
    PairWords(lower, "shipping", "delivery");
    PairWords(lower, "hello", "hi");
  }

  /** A two-word group matches exactly when one of its words occurs. */
  lemma PairWords(s: string, a: string, b: string)
    ensures ContainsAny(s, [a, b]) <==> Contains(s, a) || Contains(s, b)
  {
    if Contains(s, a) { assert a in [a, b]; }
    if Contains(s, b) { assert b in [a, b]; }
  }

  /** The mock ignores letter case: a prompt and its lower-cased form get
      the same answer. */
  lemma MockIgnoresCase(prompt: string)
    ensures MockLLMResponse(Lower(prompt)) == MockLLMResponse(prompt)
  {
    LowerIdempotent(prompt);
  }

  /** "hi" is matched anywhere, not as a word: a prompt that says "this" and
      names no catalog, price or delivery word is greeted. */
  lemma SubstringGreets(prompt: string, i: nat)
    requires i + 4 <= |prompt| && Lower(prompt)[i..i + 4] == "this"
    requires !ContainsAny(Lower(prompt), CatalogWords)
    requires !ContainsAny(Lower(prompt), PriceWords)
    requires !ContainsAny(Lower(prompt), DeliveryWords)
    ensures MockLLMResponse(prompt).response == MockText(Greeting)
  {
    var lower := Lower(prompt);
    var w := lower[i..i + 4];
    assert w[1] == 'h' && w[2] == 'i';
    assert lower[i + 1..i + 3] == [w[1], w[2]];
    assert OccursAt(lower, "hi", i + 1);
    assert "hi" in GreetingWords && Contains(lower, "hi");
  }

  // ---------------------------------------------------------------------------
  // `callOpenAI`
  // ---------------------------------------------------------------------------

  const AzureApiVersion := "2024-02-15-preview"

  /** Where the request goes: the Azure deployment's chat endpoint, or the
      configured URL unchanged. */
  function OpenAIUrl(model: ModelConfig): string
  {
    if model.provider == Azure
    then model.apiUrl + "/openai/deployments/" + model.model + "/chat/completions?api-version=" + AzureApiVersion
    else model.apiUrl
  }

  /** `${model.apiKey}`: an absent key renders as "undefined". */
  function Rendered(v: Option<string>): string
  {
    if v.Some? then v.value else "undefined"
  }

  /** The record `{'Content-Type': ..., ...(model.headers || {})}`. */
  function BaseHeaders(model: ModelConfig): map<string, string>
  {
    map["Content-Type" := "application/json"] + (if model.headers.Some? then model.headers.value else map[])
  }

  /** The credential header each provider receives, and its value. */
  function CredentialHeader(model: ModelConfig): (string, string)
  {
    if model.provider == Azure then ("api-key", OrElse(model.apiKey, ""))
    else ("Authorization", "Bearer " + Rendered(model.apiKey))
  }

  /** The headers of the request. */
  function OpenAIHeaders(model: ModelConfig): map<string, string>
  {
    BaseHeaders(model)[CredentialHeader(model).0 := CredentialHeader(model).1]
  }

  /** Lines 82-95: build the header record, then set the credential header
      in place, then choose the URL. */
  method OpenAIRequest(model: ModelConfig) returns (url: string, headers: map<string, string>)
    ensures url == OpenAIUrl(model)
    ensures headers == OpenAIHeaders(model)
  {
    headers := map["Content-Type" := "application/json"];
    if model.headers.Some? {
      headers := headers + model.headers.value;
    }
    if model.provider == Azure {
      headers := headers["api-key" := OrElse(model.apiKey, "")];
    } else {
      headers := headers["Authorization" := "Bearer " + Rendered(model.apiKey)];
    }
    url := if model.provider == Azure
      then model.apiUrl + "/openai/deployments/" + model.model + "/chat/completions?api-version=" + AzureApiVersion
      else model.apiUrl;
  }

  /** Azure gets its key in "api-key", overriding a configured header of that
      name, and the deployment URL; every other provider gets a Bearer
      "Authorization" and the configured URL. A configured header survives
      unless it has the credential's name; "Content-Type" is always sent and
      can be overridden by the configuration; nothing else is added. */
  lemma OpenAIRequestShape(model: ModelConfig)
    ensures var h := OpenAIHeaders(model); var configured := if model.headers.Some? then model.headers.value else map[];
      && (model.provider == Azure ==>
            && h["api-key"] == OrElse(model.apiKey, "")
            && OpenAIUrl(model) == model.apiUrl + "/openai/deployments/" + model.model
                                   + "/chat/completions?api-version=2024-02-15-preview")
      && (model.provider != Azure ==>
            && h["Authorization"] == "Bearer " + Rendered(model.apiKey)
            && OpenAIUrl(model) == model.apiUrl)
      && "Content-Type" in h
      && (forall k :: k in h <==> k == "Content-Type" || k in configured || k == CredentialHeader(model).0)
      && (forall k :: k in configured && k != CredentialHeader(model).0 ==> h[k] == configured[k])
      && ("Content-Type" !in configured && "Content-Type" != CredentialHeader(model).0 ==> h["Content-Type"] == "application/json")
  {
  }

  // The parsed body of the OpenAI reply: only the fields the client reads.
  datatype Message = Message(content: Option<string>)
  datatype Choice = Choice(message: Option<Message>)
  datatype Completion = Completion(choices: Option<seq<Choice>>)

  /** What `fetch` delivers: a rejection (a network or CORS failure, or, after
      an ok status, a body `response.json()` cannot parse), a non-2xx status,
      or a parsed body. */
  datatype HttpReply = Rejected(thrown: Thrown) | NotOk(status: int, statusText: string) | Ok(body: Completion)

  /** What `error` is in the `catch`: an `Error` with a message, or another value. */
  datatype Thrown = ErrorObject(message: string) | NonError

  /** How a vendor call ends: it returns a response or throws. */
  datatype Outcome = Returned(reply: LLMResponse) | Threw(thrown: Thrown)

  const NoResponse := "No response from model"

  /** The message of the `TypeError` raised by `data.choices[0]` when the
      body has no `choices`. */
  const NoChoicesMessage := "Cannot read properties of undefined (reading '0')"

  /** `data.choices[0]?.message?.content`: absent when there is no first
      choice, no message or no content. */
  function FirstContent(choices: seq<Choice>): Option<string>
  {
    if choices == [] || choices[0].message.None? then None else choices[0].message.value.content
  }

  /** Lines 117-124: a failed status throws; otherwise the first choice's
      content, or the fixed text when that is absent or empty. */
  function OpenAIReply(reply: HttpReply): Outcome
  {
    match reply
    case Rejected(t) => Threw(t)
    case NotOk(status, text) => Threw(ErrorObject("OpenAI API error: " + IntDecimal(status) + " " + text))
    case Ok(body) =>
      if body.choices.None? then Threw(ErrorObject(NoChoicesMessage))
      else Returned(LLMResponse(OrElse(FirstContent(body.choices.value), NoResponse), None))
  }

  /** The text taken from a successful reply is the model's content exactly
      when it is non-empty; a reply with no content at all is never an error. */
  lemma OpenAIReplyText(reply: HttpReply)
    ensures OpenAIReply(reply).Threw? <==> !reply.Ok? || reply.body.choices.None?
    ensures reply.Rejected? ==> OpenAIReply(reply) == Threw(reply.thrown)
    ensures reply.Ok? && reply.body.choices.Some? ==>
      var choices := reply.body.choices.value;
      var text := OpenAIReply(reply).reply.response;
      && OpenAIReply(reply).reply.error.None?
      && (text == NoResponse <==> !IsSet(FirstContent(choices)) || FirstContent(choices).value == NoResponse)
      && (IsSet(FirstContent(choices)) ==> text == choices[0].message.value.content.value)
  {
  }

  // ---------------------------------------------------------------------------
  // `callLLM`
  // ---------------------------------------------------------------------------

  /** How the Vertex, Anthropic or Ollama client ends: with the text it
      extracted (these clients never set `error`), or with a throw. */
  datatype VendorCall = VendorAnswered(text: string) | VendorThrew(thrown: Thrown)

  function VendorOutcome(v: VendorCall): (r: Outcome)
    ensures v.VendorThrew? <==> r.Threw?
    ensures v.VendorAnswered? ==> r.reply == LLMResponse(v.text, None)
    ensures v.VendorThrew? ==> r.thrown == v.thrown
  {
    match v
    case VendorAnswered(text) => Returned(LLMResponse(text, None))
    case VendorThrew(t) => Threw(t)
  }

  /** The answers of the vendors `callLLM` may reach. The OpenAI endpoint is a
      function of the URL and headers the client sends. */
  datatype Remote = Remote(
    vertex: VendorCall,
    anthropic: VendorCall,
    ollama: VendorCall,
    openAI: (string, map<string, string>) -> HttpReply)

  datatype Route = MockRoute | VertexRoute | OpenAIRoute | AnthropicRoute | OllamaRoute

  /** Lines 9-25: the mock model first, then the request format; any other
      format, or none, answers with the mock. */
  function RouteOf(model: ModelConfig): Route
  {
    if model.provider == Custom && model.model == "mock" then MockRoute
    else match model.requestFormat
      case Some(VertexFormat) => VertexRoute
      case Some(OpenAIFormat) => OpenAIRoute
      case Some(AnthropicFormat) => AnthropicRoute
      case Some(OllamaFormat) => OllamaRoute
      case _ => MockRoute
  }

  /** The apology text the `catch` answers with. */
  function ErrorText(model: ModelConfig): string
  {
    "Error connecting to " + model.name + ". Using mock response instead."
  }

  /** Lines 26-32: a thrown value becomes an answer that carries its message,
      or "Unknown error" for a value that is not an `Error`. */
  function Caught(o: Outcome, model: ModelConfig): (r: LLMResponse)
    ensures o.Returned? ==> r == o.reply
    ensures o.Threw? ==> r.response == ErrorText(model) && r.error.Some?
    ensures o.Threw? && o.thrown.ErrorObject? ==> r.error == Some(o.thrown.message)
    ensures o.Threw? && o.thrown.NonError? ==> r.error == Some("Unknown error")
  {
    match o
    case Returned(reply) => reply
    case Threw(t) => LLMResponse(ErrorText(model), Some(if t.ErrorObject? then t.message else "Unknown error"))
  }

  /** What the dispatched vendor call ends with. */
  function Dispatched(model: ModelConfig, remote: Remote): Outcome
    requires RouteOf(model) != MockRoute
  {
    match RouteOf(model)
    case VertexRoute => VendorOutcome(remote.vertex)
    case AnthropicRoute => VendorOutcome(remote.anthropic)
    case OllamaRoute => VendorOutcome(remote.ollama)
    case OpenAIRoute => OpenAIReply(remote.openAI(OpenAIUrl(model), OpenAIHeaders(model)))
  }

  /** `callLLM`: it never throws. */
  function CallLLM(prompt: string, model: ModelConfig, remote: Remote): LLMResponse
  {
    if RouteOf(model) == MockRoute then MockLLMResponse(prompt)
    else Caught(Dispatched(model, remote), model)
  }

  /** The mock model, and any model whose format is none of the four vendor
      formats, is answered locally: no vendor's answer affects the result. */
  lemma LocalModelsIgnoreRemote(prompt: string, model: ModelConfig, r1: Remote, r2: Remote)
    requires (model.provider == Custom && model.model == "mock")
          || model.requestFormat.None? || model.requestFormat == Some(CustomFormat)
    ensures CallLLM(prompt, model, r1) == CallLLM(prompt, model, r2) == MockLLMResponse(prompt)
  {
  }

  /** A vendor failure is never propagated: the answer has an error exactly
      when the dispatched call threw, and then it apologises by model name. */
  lemma FailureIsCaptured(prompt: string, model: ModelConfig, remote: Remote)
    ensures var r := CallLLM(prompt, model, remote);
      && (r.error.Some? <==> RouteOf(model) != MockRoute && Dispatched(model, remote).Threw?)
      && (RouteOf(model) != MockRoute && Dispatched(model, remote).Threw? ==> r.response == ErrorText(model))
  {
  }

  /** A model on the OpenAI route whose endpoint answers with a failed status
      gets the apology, and the status in the error message. */
  lemma OpenAIStatusReported(prompt: string, model: ModelConfig, remote: Remote, status: int, text: string)
    requires RouteOf(model) == OpenAIRoute
    requires remote.openAI(OpenAIUrl(model), OpenAIHeaders(model)) == NotOk(status, text)
    ensures CallLLM(prompt, model, remote)
         == LLMResponse(ErrorText(model), Some("OpenAI API error: " + IntDecimal(status) + " " + text))
  {
  }

  /** A rejected OpenAI request (network failure, unparsable body) is caught
      like any other throw: the apology, carrying the rejection's message. */
  lemma OpenAIRejectionReported(prompt: string, model: ModelConfig, remote: Remote, t: Thrown)
    requires RouteOf(model) == OpenAIRoute
    requires remote.openAI(OpenAIUrl(model), OpenAIHeaders(model)) == Rejected(t)
    ensures CallLLM(prompt, model, remote)
         == LLMResponse(ErrorText(model), Some(if t.ErrorObject? then t.message else "Unknown error"))
  {
  }

  /** Every row of the registry is routed by its own format: the OpenAI and
      Azure rows through the OpenAI client, the Anthropic and Ollama rows to
      their vendors, and only the mock row to the mock. */
  lemma TableRoutes(env: ViteEnv, i: nat)
    requires i < |Models(env)|
    ensures var m := Models(env)[i];
      && (RouteOf(m) == MockRoute <==> m.id == "mock-llm")
      && (RouteOf(m) == OpenAIRoute <==> m.provider == OpenAI || m.provider == Azure)
      && (RouteOf(m) == AnthropicRoute <==> m.provider == Anthropic)
      && (RouteOf(m) == OllamaRoute <==> m.provider == Ollama)
      && RouteOf(m) != VertexRoute
  {
    var e := TableOrder[i];
    assert Models(env)[i] == Config(e, env);
    IdsDistinct(e, MockLlm);
  }
}
