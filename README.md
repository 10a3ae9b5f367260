# AIRS-D prompt-injection demo: a verified model of its decision core

The demo storefront has a chatbot protected by a prompt-security verdict engine. This project models in Dafny the parts of the repository that decide something:

- **The two rule engines, in Node and PHP.** `checkPromptSecurity` with its two sanitisers, plus the scan-request validation and the keyword mock replies.
- **The Node server's scan gateway.** The mock AIRS scan, the configuration gate and fallback, and the normaliser of the remote verdict.
- **The Node server's chat route.** The provider switch and the credential gates of the vendor callers.
- **The per-provider rate-limit table and the bounded retry loop.** The table is a class over a `map`; the retry loop is a `while` loop proved against a recursive specification.
- **The server-side model checker.** Provider configuration, capabilities, the Ollama probe URL, and the list building and filtering of `checkAvailableModels`.
- **The browser-side model registry.** The `MODELS` table with `getAvailableModels`, `getModelById` and `getDefaultModel`.
- **The browser-side chat client.** The `callLLM` dispatch and error capture, the OpenAI/Azure request, reply extraction, and the mock.

Anything that crosses a process boundary is an input of the model. That covers network replies, probe results, the clock and environment variables.

| file | module | models |
|---|---|---|
| common.dfy | `Common` | JavaScript values and truthiness, `x \|\| fallback`, decimal rendering |
| text.dfy | `Text` | ASCII lower-casing, `includes`, `indexOf`, the regex replacements both engines use |
| prompt_rules.dfy | `PromptRules` | BACKEND_PSEUDO_CODE.js |
| php_backend.dfy | `PhpBackend` | BACKEND_PHP_VERSION.php |
| airs_server.dfy | `AirsServer` | server/index.js |
| rate_limiter.dfy | `RateLimiter` | server/rateLimiter.js |
| model_checker.dfy, ollama_url.dfy | `ModelChecker`, `OllamaUrl` | server/modelChecker.js |
| models_config.dfy | `ModelsConfig` | src/config/models.config.ts |
| llm_service.dfy | `LlmService` | src/services/llmService.ts |

Where the design description and the code differ, the model follows the code:

- **Safe-roleplay sanitising.** The design says a safe roleplay is sanitised by rewriting the persona clause. In the code, `sanitizeRoleplay` only rewrites clauses that name a malicious role, and that branch has already excluded those. So the "sanitised" prompt is the prompt itself (`PromptRules.SafeRoleplayKeepsPrompt`).
- **Rescanning a sanitised prompt.** The design promises that rescanning a sanitised prompt gives `allow`. The code gives no such guarantee:
  - A safe roleplay is returned unchanged, so a rescan sanitises it again.
  - The replacement text "improve security" can complete the reset-bypass condition on a rescan.
- **Prompt validation in the Node scan route.** The design says the scan route rejects non-string prompts. The Node route only rejects falsy ones. A truthy non-string prompt reaches `mockAIRSScan`, whose `toLowerCase` throws, and the route answers 500 with `allow` (`AirsServer.ScanRouteFailOpen`).
- **Prompt validation in the PHP route.** The PHP route accepts the empty string, and it is allowed (`PhpBackend.EmptyPromptAllowed`).
- **Unconfigured providers in the chat route.** The design asks for a distinct "provider not configured" error. In the code the provider's caller throws before any request, with its own message such as "Anthropic API key not configured". The route then answers 500 "LLM request failed" and carries that message in `message` (`AirsServer.MissingCredentialsFail`).
- **Negative retry counts.** The design calls the retry count non-negative. The environment can make it negative, and then `callWithRetry` runs no attempt and throws its fallback error (`RateLimiter.NoAttemptsFallback`).

## Model

| member | source | states |
|---|---|---|
| PromptRules.CheckPromptSecurity | BACKEND_PSEUDO_CODE.js:39-142 | a verdict carries a sanitised prompt exactly when it is `sanitize`, and always has a non-empty reason |
| PromptRules.OverrideAlwaysBlocks | BACKEND_PSEUDO_CODE.js:43-53 | any override phrase, in any letter case, blocks with the override reason whatever else the prompt holds |
| PromptRules.CredentialBlocks | BACKEND_PSEUDO_CODE.js:56-66 | without an override phrase, any credential term blocks as credential exfiltration |
| PromptRules.RoleTierNeverAllows | BACKEND_PSEUDO_CODE.js:70-95 | a prompt reaching the role tier is never allowed; it is blocked exactly when it names a malicious role |
| PromptRules.SafeRoleplayKeepsPrompt | BACKEND_PSEUDO_CODE.js:78-94 | in the safe-roleplay branch the sanitised prompt is the original prompt and holds no malicious role |
| PromptRules.SanitizeRoleplayIdentity | BACKEND_PSEUDO_CODE.js:148-153 | the roleplay regexes change nothing in a prompt that names no malicious role |
| PromptRules.NoRoleNoClause | BACKEND_PSEUDO_CODE.js:148-153 | no alternative of the roleplay regexes can match a prompt without a malicious role word |
| PromptRules.ResetTierIsNarrow | BACKEND_PSEUDO_CODE.js:98-114 | a reset phrase blocks exactly together with "forget" and "security"/"restriction"; otherwise the verdict is the hypothetical tier's or the default |
| PromptRules.HypotheticalSanitized | BACKEND_PSEUDO_CODE.js:117-135 | hypothetical framing with bypass vocabulary is sanitised, and the sanitised prompt holds none of the four bypass terms |
| PromptRules.SanitizeHypotheticalClean | BACKEND_PSEUDO_CODE.js:155-158 | the output of `sanitizeHypothetical` contains no bypass term in any letter case |
| PromptRules.ImproveSecurityIsInert | BACKEND_PSEUDO_CODE.js:155-158 | the replacement text can neither contain a bypass term nor complete one with its neighbours |
| PromptRules.AllowExactlyWhenNoTier | BACKEND_PSEUDO_CODE.js:49-141 | a prompt is allowed exactly when no tier matches, and then with the fixed reason |
| PromptRules.ScanRoute | BACKEND_PSEUDO_CODE.js:12-33 | a missing, empty or non-string prompt gets 400 "Invalid prompt"; any other prompt gets the engine's verdict |
| PromptRules.MockResponsePriority | BACKEND_PSEUDO_CODE.js:194-229 | each reply group answers exactly when one of its words occurs and no earlier group's does |
| PhpBackend.Stripos | BACKEND_PHP_VERSION.php:76-178 | `stripos` finds the first case-insensitive occurrence, and `false` exactly when there is none |
| PhpBackend.CheckPromptSecurity | BACKEND_PHP_VERSION.php:76-178 | a verdict carries a sanitised prompt exactly when it is `sanitize`, and always has a non-empty reason |
| PhpBackend.TiersAgree | BACKEND_PHP_VERSION.php:76-178 | with ASCII letter-case folding, each PHP tier test gives the Node tier test's answer on every prompt |
| PhpBackend.SameVerdictAsNode | BACKEND_PHP_VERSION.php:76-178 | with ASCII letter-case folding, the PHP engine gives the Node engine's verdict and reason on every prompt |
| PhpBackend.SameSanitizedAsNode | BACKEND_PHP_VERSION.php:131-177 | both engines return the prompt itself for a safe roleplay, and each returns its own sanitiser's output for a hypothetical |
| PhpBackend.RoleplayRewriteDiffers | BACKEND_PHP_VERSION.php:184-193 | on a one-line "act as a <role>" prompt the Node rewrite keeps "act as", the PHP rewrite says "you are a helpful assistant" |
| PhpBackend.SanitizeRoleplayIdentity | BACKEND_PHP_VERSION.php:184-193 | the PHP roleplay rewrite changes nothing in a prompt that names no malicious role |
| PhpBackend.StrIReplaceRemoves | BACKEND_PHP_VERSION.php:195-201 | after `str_ireplace` no search word remains, provided the replacement cannot form one |
| PhpBackend.SanitizeHypotheticalClean | BACKEND_PHP_VERSION.php:195-201 | the PHP hypothetical sanitiser leaves no bypass word in any letter case |
| PhpBackend.HandleAirsScan | BACKEND_PHP_VERSION.php:43-70 | an absent or non-string prompt gets 400 "Invalid prompt"; every string, even the empty one, is classified |
| PhpBackend.EmptyPromptAllowed | BACKEND_PHP_VERSION.php:46-50 | the empty prompt is allowed by PHP although the Node route refuses it |
| PhpBackend.SameReplyAsNode | BACKEND_PHP_VERSION.php:244-279 | with ASCII letter-case folding, the PHP mock reply picks the same keyword group and text as the Node one for every prompt |
| PhpBackend.ScanWithAirs | BACKEND_PHP_VERSION.php:289-323 | any status but 200 fails; otherwise status and details become verdict and reason, a missing field reads as null, and a sanitised text that is not set becomes null |
| AirsServer.MockAirsScan | server/index.js:208-252 | the mock never answers `sanitize`, and stamps its own scan id |
| AirsServer.MockScanTiers | server/index.js:208-252 | override, then secret extraction, then malicious role block in that order with their details; otherwise allow with all flags false |
| AirsServer.OverrideOnOneLine | server/index.js:211-223 | an override verb followed on the same line by an override target is blocked as an override |
| AirsServer.ForgetPreviousInstructionsBlocked | server/index.js:211-223 | "forget your previous instructions" is blocked by the mock |
| AirsServer.Normalize | server/index.js:195-201 | the remote verdict is `block` exactly when the action is "block", with the category or "Unknown" as reason |
| AirsServer.ScanWithAirs | server/index.js:157-206 | without full configuration, or on a failed remote call, the answer is the mock's; otherwise the normalised remote verdict |
| AirsServer.UnconfiguredIgnoresRemote | server/index.js:162-164 | without full configuration the remote service plays no part |
| AirsServer.ScanNeverSanitizes | server/index.js:157-206 | no scan result, mock or remote, is `sanitize` |
| AirsServer.ScanRoute | server/index.js:254-272 | a falsy prompt gets 400 "Prompt is required"; any other prompt gets exactly the scan's result, or the fail-open 500 reply when the scan throws |
| AirsServer.ScanRouteFailOpen | server/index.js:254-272 | a non-empty string always gets a scan result; fail-open happens exactly for a truthy non-string that reaches the mock, and it allows |
| AirsServer.SelectProvider | server/index.js:284-300 | the switch knows exactly five provider names: "vertex", "anthropic" and "ollama" go to their callers with the model or its default (gemini-pro, claude-3-sonnet-20240229, llama2), "openai" and "azure" both to the Azure caller |
| AirsServer.CredentialGate | server/index.js:26-155 | each caller refuses before any request exactly when its credentials are missing; Ollama never refuses |
| AirsServer.CallProvider | server/index.js:26-155 | a refused call fails with the gate's message; an answer is never empty and is the vendor's text when that is non-empty |
| AirsServer.ChatRoute | server/index.js:274-310 | a falsy prompt and an unknown provider get 400; an answered call returns its response, a failed one gets 500 "LLM request failed" with the call's message |
| AirsServer.UnknownProviderMakesNoCall | server/index.js:284-300 | an unknown provider is refused whatever the environment and the vendors would answer |
| AirsServer.MissingCredentialsFail | server/index.js:274-310 | with credentials missing the route fails with the gate's message whatever the network would answer |
| RateLimiter.ConfigFallsBack | server/rateLimiter.js:10-17 | each setting comes from its variable when that parses to a non-zero number, otherwise from the defaults 3, 1000, 60000, 2 |
| RateLimiter.RateLimiter.IsRateLimited | server/rateLimiter.js:19-30 | true exactly while the provider's reset time lies ahead; an expired entry is removed and nothing else changes |
| RateLimiter.EvictTouchesOnlyProvider | server/rateLimiter.js:19-30 | the lazy eviction keeps a live entry, drops an expired one and leaves every other provider's entry as it was |
| RateLimiter.RateLimiter.SetRateLimit | server/rateLimiter.js:32-44 | the table gains the provider's new limit and nothing else changes |
| RateLimiter.WithLimitReplaces | server/rateLimiter.js:32-44 | the new entry resets at now plus the hint in milliseconds, or the initial delay, replacing any earlier entry; other providers untouched |
| RateLimiter.RateLimiter.GetRateLimitInfo | server/rateLimiter.js:46-58 | nothing for an unknown provider; otherwise a non-negative remaining time, positive exactly when the provider is limited |
| RateLimiter.InfoConsistent | server/rateLimiter.js:46-58 | the remaining time is never negative and is positive exactly before the reset time |
| RateLimiter.RateLimiter.ClearRateLimits | server/rateLimiter.js:124-127 | the table is empty afterwards |
| RateLimiter.RateLimiter.GetAllRateLimits | server/rateLimiter.js:129-141 | one report for exactly the providers in the table, each that provider's current info, with the table unchanged |
| RateLimiter.BackoffDelay | server/rateLimiter.js:101-110 | the backoff is the smaller of `initialDelay * multiplier^attempt` and `maxDelay` |
| RateLimiter.AttemptOutcome | server/rateLimiter.js:73-110 | a success ends the loop; a 429 records the provider's limit before the retry decision; a failure is retried, after a `Backoff(BackoffDelay(cfg, attempt))` sleep, exactly when it is a 429 or 503 and `attempt < maxRetries`, and otherwise thrown |
| RateLimiter.RateLimiter.CallWithRetry | server/rateLimiter.js:60-118 | the loop returns what the retry specification gives: result, requested sleeps, number of calls and the new table |
| RateLimiter.CallsBounded | server/rateLimiter.js:64-117 | the operation runs at most `maxRetries + 1` times, and at least once when the loop is entered |
| RateLimiter.SleepsBounded | server/rateLimiter.js:88-110 | every backoff sleep is at most `maxDelay` and every wait for a limited provider is positive |
| RateLimiter.LastCallDecides | server/rateLimiter.js:73-117 | the result of the loop is decided by the outcome of its last invocation |
| RateLimiter.FirstSuccessReturned | server/rateLimiter.js:73-80 | the first success after retryable failures is returned at once, after exactly `k + 1` invocations |
| RateLimiter.OtherFailureStops | server/rateLimiter.js:82-117 | a failure that is neither 429 nor 503 is thrown at once with no further attempt |
| RateLimiter.AlwaysRateLimited | server/rateLimiter.js:82-117 | an operation that always fails with 429 runs exactly `maxRetries + 1` times and its last error is thrown |
| RateLimiter.NoAttemptsFallback | server/rateLimiter.js:64-117 | with a negative retry count nothing runs and the fallback error is thrown |
| ModelChecker.ConfiguredHasCapabilities | server/modelChecker.js:235-280 | vertex and azure need both their variables, anthropic its key, ollama and custom nothing; any other name is never configured and has no capabilities |
| ModelChecker.CapabilitiesShape | server/modelChecker.js:235-263 | Anthropic has the largest token limit; exactly Anthropic, Azure and Ollama stream |
| OllamaUrl.OllamaBaseCut | server/modelChecker.js:72-74 | the base is the URL cut at the leftmost "/api" whose line runs to the end, or the URL itself when there is none |
| OllamaUrl.OllamaBaseHasNoApi | server/modelChecker.js:72-74 | on a one-line URL the base contains no "/api" |
| OllamaUrl.OllamaBaseIdempotent | server/modelChecker.js:72-74 | normalising a normalised URL changes nothing |
| OllamaUrl.ProbeUrl | server/modelChecker.js:70-74 | a configured "<base>/api<path>" is probed at "<base>/api/tags"; an unset or empty variable probes the default host |
| ModelChecker.PushModels | server/modelChecker.js:91-228 | the objects pushed are the Vertex, Anthropic and Azure ones when configured, then the two Ollama ones, then the mock, in that order |
| ModelChecker.AwaitProbes | server/modelChecker.js:114-121 | every object except the mock gets its probe's answer in both `reachable` and `enabled` |
| ModelChecker.KeepEnabled | server/modelChecker.js:232 | the loop returns the enabled objects in order |
| ModelChecker.CheckAvailableModels | server/modelChecker.js:87-233 | the result is the enabled entries of the specified list, in push order |
| ModelChecker.ProbeDecides | server/modelChecker.js:114-214 | every listed model records its own provider's probe; the Anthropic models share one, the Ollama models another |
| ModelChecker.ListedProvidersConfigured | server/modelChecker.js:91-185 | every listed model's provider is configured, and the list has 2, 3 and 1 entries for configured Vertex, Anthropic and Azure plus 3 |
| ModelChecker.MockAlwaysAvailable | server/modelChecker.js:218-232 | the mock is always the last reported model and is reachable, so the result is never empty |
| ModelChecker.ReportedAreEnabled | server/modelChecker.js:232 | the reported models are exactly the listed enabled ones; when every probe succeeds nothing is dropped |
| ModelsConfig.AvailableAreEnabledRows | src/config/models.config.ts:121-123 | `getAvailableModels` returns exactly the enabled rows, in table order |
| ModelsConfig.KeepEnabledAppend | src/config/models.config.ts:121-123 | filtering a concatenation filters each part in turn, which is why table order is kept |
| ModelsConfig.FindById | src/config/models.config.ts:125-127 | `find` returns a row with that id, and nothing exactly when no row has it |
| ModelsConfig.LookupByOwnId | src/config/models.config.ts:14-127 | every row is found by its own id, since no two rows share an id |
| ModelsConfig.LookupUnknownId | src/config/models.config.ts:125-127 | an id no row has finds nothing |
| ModelsConfig.MockAlwaysEnabled | src/config/models.config.ts:109-118 | the last row is the mock model and is enabled in every environment |
| ModelsConfig.DefaultIsFirstEnabled | src/config/models.config.ts:129-132 | the default model is the first enabled row, and hence always enabled |
| ModelsConfig.EnabledByProvider | src/config/models.config.ts:14-119 | the OpenAI, Anthropic and Ollama rows are enabled exactly when their variable is set, Azure when both of its are, the mock always |
| LlmService.MockLLMResponse | src/services/llmService.ts:192-222 | the mock answer never carries an error |
| LlmService.MockTopicPriority | src/services/llmService.ts:192-222 | the mock answers with a keyword group's text exactly when one of its words occurs in the lower-cased prompt and no earlier group's word does |
| LlmService.MockIgnoresCase | src/services/llmService.ts:192-222 | a prompt and its lower-cased form get the same mock answer |
| LlmService.SubstringGreets | src/services/llmService.ts:213-217 | "hi" matches inside words: a prompt saying "this" and no earlier keyword gets the greeting |
| LlmService.OpenAIRequest | src/services/llmService.ts:82-95 | the request goes to the URL and with the headers the provider calls for |
| LlmService.OpenAIRequestShape | src/services/llmService.ts:82-95 | Azure gets its key in "api-key" and the deployment URL, others a Bearer header and the configured URL; configured headers survive unless overridden |
| LlmService.OpenAIReplyText | src/services/llmService.ts:97-124 | a rejected request, a failed status or a body without choices throws; otherwise the first non-empty content, or "No response from model" |
| LlmService.Caught | src/services/llmService.ts:26-32 | a thrown value becomes the apology with its message, or "Unknown error" for a non-Error |
| LlmService.LocalModelsIgnoreRemote | src/services/llmService.ts:9-25 | the mock model, and a model with no vendor format, are answered by the mock whatever the vendors would say |
| LlmService.FailureIsCaptured | src/services/llmService.ts:13-32 | `callLLM` never throws: the answer has an error exactly when the dispatched call failed, and then apologises by model name |
| LlmService.OpenAIRejectionReported | src/services/llmService.ts:97-121 | a rejected `fetch` or unparsable body is caught into the apology carrying the rejection's message |
| LlmService.OpenAIStatusReported | src/services/llmService.ts:117-119 | a failed OpenAI status is reported with its code and text in the error |
| LlmService.TableRoutes | src/services/llmService.ts:9-25 | every registry row goes to its own vendor, and only the mock row to the mock |

## Left out

- Letter case is folded for ASCII only. `toLowerCase` in JavaScript folds all of Unicode; PHP's `strtolower` folds ASCII.
- PhpBackend.TiersAgree, PhpBackend.SameVerdictAsNode, PhpBackend.SameReplyAsNode: the agreement holds under ASCII folding only. JavaScript also folds some non-ASCII letters to ASCII ones. The Kelvin sign U+212A becomes "k", and U+0130 becomes "i" plus a combining dot. So "act as a hac\u212Aer" is blocked by the Node engine but only sanitised by the PHP one, and "H\u0130" is greeted by the Node mock only. Non-ASCII case variants can get past the PHP engine.
- Every network call (`fetch`, `curl_*`), its timeout and `AbortController`, and JSON parsing are left out. Their outcomes are inputs: a status or parsed body, or a thrown error.
- The vendors' Vertex, Anthropic and Ollama replies in `callLLM` are inputs: either the text the client extracted, or a throw. Those clients never set `error`. The OpenAI reply is an input function of the URL and headers the client sends.
- `Date.now()` is a `now` parameter and `sleep` is recorded. `Math.random` transaction ids and `mock-<timestamp>` scan ids are opaque values.
- `getAllRateLimits` reads the clock once. The source reads it once per provider.
- `getAllRateLimits` keeps `resetTime` as a number. The source renders it as an ISO date string.
- The result of `getAllRateLimits` is a map, so the iteration order of the source's `Map` is not modelled.
- RateLimiter.GetRateLimitConfig: the backoff multiplier is a whole number of at least 1, because `parseFloat` and fractional multipliers are floating point.
- Environment values arrive already parsed. A `Retry-After` hint is a number of seconds. NaN, meaning unset or unparsable, is `None`.
- ModelChecker.AwaitProbes: `Promise.all` and the order in which the callbacks run are not modelled. Each object receives the answer of the probe that holds it. This gives the same final state, because each callback writes only its own objects.
- Console logging, PHP `header`/`echo` output, and the V8 wording of TypeErrors are left out. The one TypeError message used is a fixed constant.
- `choices` must be an array or absent. A `choices` value that is present but not an array is not modelled, and neither is message content that is not a string.
- These parts are not part of this model:
  - src/utils/tokenCounter.ts;
  - the cart arithmetic;
  - server/auth.js;
  - src/services/api.ts;
  - the React components and pages;
  - productContext.ts and vite.config.ts.

  They are floating-point estimates, foreign libraries (bcrypt, JWT, Postgres), browser storage, or rendering.
