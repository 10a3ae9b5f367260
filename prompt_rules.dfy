/** The demo rule engine of the Node/Express backend: the `/api/airs/scan`
    request check, `checkPromptSecurity` with its five keyword tiers, the two
    sanitisers, and the keyword-driven mock chat reply. */
module PromptRules {
  import opened Common
  import opened Text

  datatype Action = Allow | Block | Sanitize

  /** `{verdict, reason, sanitized_prompt?}` as returned by `checkPromptSecurity`. */
  datatype Verdict = Verdict(verdict: Action, reason: string, sanitizedPrompt: Option<string>)

  // ---------------------------------------------------------------------------
  // Keyword tiers, in the order they are tested
  // ---------------------------------------------------------------------------

  const OverridePhrases: seq<string> :=
    ["ignore your system prompt", "forget all previous instructions", "disregard the above", "override instructions"]
  const CredentialTerms: seq<string> := ["api key", "secret", "password", "database", "credentials"]
  const RolePhrases: seq<string> := ["you are now", "pretend to be", "act as a", "roleplay as"]
  const MaliciousRoles: seq<string> := ["hacker", "malware", "criminal", "fraud"]
  const ResetPhrases: seq<string> := ["[reset", "reset context", "new conversation", "start over"]
  const HypotheticalPhrases: seq<string> := ["in a hypothetical", "suppose", "imagine"]
  const BypassTerms: seq<string> := ["bypass", "circumvent", "hack", "exploit"]

  const OverrideReason := "System prompt override attempt detected"
  const CredentialReason := "Credential exfiltration attempt detected"
  const MaliciousRoleplayReason := "Malicious roleplay attempt detected"
  const RoleplayReason := "Roleplay sanitized to ensure safety"
  const ResetReason := "Security bypass attempt via context reset"
  const HypotheticalReason := "Hypothetical sanitized to prevent security discussion"
  const AllowReason := "Prompt passed security checks"

  predicate OverrideTier(lower: string) { ContainsAny(lower, OverridePhrases) }
  predicate CredentialTier(lower: string) { ContainsAny(lower, CredentialTerms) }
  predicate RoleTier(lower: string) { ContainsAny(lower, RolePhrases) }
  predicate MaliciousRole(lower: string) { ContainsAny(lower, MaliciousRoles) }
  predicate ResetTier(lower: string) { ContainsAny(lower, ResetPhrases) }

  /** The extra wording that makes a context reset a security bypass. */
  predicate ResetBypass(lower: string)
  {
    Contains(lower, "forget") && (Contains(lower, "security") || Contains(lower, "restriction"))
  }

  predicate HypotheticalTier(lower: string)
  {
    ContainsAny(lower, HypotheticalPhrases) && ContainsAny(lower, BypassTerms)
  }

  /** `checkPromptSecurity`: the first tier that matches the lower-cased prompt
      decides the verdict. */
  function CheckPromptSecurity(prompt: string): (v: Verdict)
    ensures v.sanitizedPrompt.Some? <==> v.verdict == Sanitize
    ensures v.reason != ""
  {
    var lower := Lower(prompt);
    if OverrideTier(lower) then
      Verdict(Block, OverrideReason, None)
    else if CredentialTier(lower) then
      Verdict(Block, CredentialReason, None)
    else if RoleTier(lower) then
      if MaliciousRole(lower) then Verdict(Block, MaliciousRoleplayReason, None)
      else Verdict(Sanitize, RoleplayReason, Some(SanitizeRoleplay(prompt)))
    else if ResetTier(lower) && ResetBypass(lower) then
      Verdict(Block, ResetReason, None)
    else if HypotheticalTier(lower) then
      Verdict(Sanitize, HypotheticalReason, Some(SanitizeHypothetical(prompt)))
    else
      Verdict(Allow, AllowReason, None)
  }

  // ---------------------------------------------------------------------------
  // Sanitisers
  // ---------------------------------------------------------------------------

  /** The alternatives of `/<lead> a? (hacker|malware|criminal|fraud).*`: the
      optional `a` gives "<lead> a <role>" and "<lead>  <role>". */
  function ClauseHeads(lead: string): (heads: seq<string>)
    ensures |heads| == 8
  {
    [lead + " a " + "hacker", lead + " a " + "malware", lead + " a " + "criminal", lead + " a " + "fraud",
     lead + "  " + "hacker", lead + "  " + "malware", lead + "  " + "criminal", lead + "  " + "fraud"]
  }

  const RoleSeparators: seq<string> := [" a ", "  "]

  /** Every head is the lead, a separator and a malicious role. */
  lemma ClauseHeadsShape(lead: string, h: string)
    requires h in ClauseHeads(lead)
    ensures exists sep, w :: sep in RoleSeparators && w in MaliciousRoles && h == lead + sep + w
  {
    var heads := ClauseHeads(lead);
    var k :| 0 <= k < 8 && heads[k] == h;
    var sep := if k < 4 then " a " else "  ";
    var w := MaliciousRoles[k % 4];
    assert sep in RoleSeparators && w in MaliciousRoles;
    assert h == lead + sep + w;
  }

  lemma ClausePartsPlain(d: Dialect)
    ensures forall sep :: sep in RoleSeparators ==> NoLineTerminator(sep, d)
    ensures forall w :: w in MaliciousRoles ==> NoLineTerminator(w, d)
  {
    SeparatorsPlain(d);
    RolesPlain(d);
  }

  lemma SeparatorsPlain(d: Dialect)
    ensures forall sep :: sep in RoleSeparators ==> NoLineTerminator(sep, d)
  {
    assert NoLineTerminator(" a ", d);
    assert NoLineTerminator("  ", d);
  }

  lemma RolesPlain(d: Dialect)
    ensures forall w :: w in MaliciousRoles ==> NoLineTerminator(w, d)
  {
    assert NoLineTerminator("hacker", d);
    assert NoLineTerminator("malware", d);
    assert NoLineTerminator("criminal", d);
    assert NoLineTerminator("fraud", d);
  }

  lemma ClauseHeadsValid(lead: string, d: Dialect)
    requires '\n' !in lead && '\r' !in lead && '\U{2028}' !in lead && '\U{2029}' !in lead
    ensures ValidHeads(ClauseHeads(lead), d)
  {
    NoLineTerminatorByMembership(lead, d);
    forall h | h in ClauseHeads(lead)
      ensures |h| > 0 && NoLineTerminator(h, d)
    {
      ClauseHeadsShape(lead, h);
      var sep, w :| sep in RoleSeparators && w in MaliciousRoles && h == lead + sep + w;
      ClausePartsPlain(d);
      NoLineTerminatorConcat(lead, sep, d);
      NoLineTerminatorConcat(lead + sep, w, d);
    }
  }

  const YouAreNow := "you are now"
  const ActAs := "act as"
  const YouAreHelpful := "you are a helpful assistant"
  const ActAsHelpful := "act as a helpful assistant"
  const ImproveSecurity := "improve security"

  lemma LeadsPlain()
    ensures '\n' !in YouAreNow && '\r' !in YouAreNow && '\U{2028}' !in YouAreNow && '\U{2029}' !in YouAreNow
    ensures '\n' !in ActAs && '\r' !in ActAs && '\U{2028}' !in ActAs && '\U{2029}' !in ActAs
  {
  }

  lemma RoleplayHeadsValid()
    ensures ValidHeads(ClauseHeads(YouAreNow), EcmaScript)
    ensures ValidHeads(ClauseHeads(ActAs), EcmaScript)
  {
    LeadsPlain();
    ClauseHeadsValid(YouAreNow, EcmaScript);
    ClauseHeadsValid(ActAs, EcmaScript);
  }

  /** `sanitizeRoleplay`: two global, case-insensitive replacements, each
      turning a malicious role clause and the rest of its line into a benign one. */
  function SanitizeRoleplay(prompt: string): string
  {
    RoleplayHeadsValid();
    var once := ReplaceClauses(prompt, ClauseHeads(YouAreNow), YouAreHelpful, EcmaScript);
    ReplaceClauses(once, ClauseHeads(ActAs), ActAsHelpful, EcmaScript)
  }

  /** `sanitizeHypothetical`: `/bypass|circumvent|hack|exploit/gi` → "improve security". */
  function SanitizeHypothetical(prompt: string): string
  {
    ReplaceWords(prompt, BypassTerms, ImproveSecurity)
  }

  // ---------------------------------------------------------------------------
  // What the sanitisers guarantee
  // ---------------------------------------------------------------------------

  /** A prompt that mentions no malicious role, case-insensitively, has no
      role clause either. */
  lemma NoRoleNoClause(prompt: string, lead: string)
    requires !MaliciousRole(Lower(prompt))
    ensures forall h :: h in ClauseHeads(lead) ==> !ContainsCI(prompt, h)
  {
    forall h | h in ClauseHeads(lead)
      ensures !ContainsCI(prompt, h)
    {
      ClauseHeadsShape(lead, h);
      var sep, w :| sep in RoleSeparators && w in MaliciousRoles && h == lead + sep + w;
      if ContainsCI(prompt, h) {
        ContainsInfix(Lower(prompt), lead + sep, w);
        assert false;
      }
    }
  }

  /** `sanitizeRoleplay` only rewrites text that names a malicious role: on any
      other prompt it is the identity. */
  lemma SanitizeRoleplayIdentity(prompt: string)
    requires !MaliciousRole(Lower(prompt))
    ensures SanitizeRoleplay(prompt) == prompt
  {
    RoleplayHeadsValid();
    NoRoleNoClause(prompt, YouAreNow);
    ReplaceClausesIdentity(prompt, ClauseHeads(YouAreNow), YouAreHelpful, EcmaScript);
    NoRoleNoClause(prompt, ActAs);
    ReplaceClausesIdentity(prompt, ClauseHeads(ActAs), ActAsHelpful, EcmaScript);
  }

  lemma NotOverlapsByFirstTwo(a: string, b: string)
    requires |a| >= 1 && |b| >= 1
    requires LowerChar(a[0]) != b[0] || (|a| >= 2 && |b| >= 2 && LowerChar(a[1]) != b[1])
    ensures !Overlaps(a, b)
  {
  }

  /** No suffix of "improve security" begins a bypass term. */
  lemma ImproveSecurityNoInner(f: string)
    requires f in BypassTerms
    ensures NoInnerOverlap(ImproveSecurity, f)
  {
    forall i | 0 <= i < |ImproveSecurity|
      ensures !Overlaps(ImproveSecurity[i..], f)
    {
      assert i == 0 || i == 1 || i == 2 || i == 3 || i == 4 || i == 5 || i == 6 || i == 7
          || i == 8 || i == 9 || i == 10 || i == 11 || i == 12 || i == 13 || i == 14 || i == 15;
      NotOverlapsByFirstTwo(ImproveSecurity[i..], f);
    }
  }

  /** "improve security" does not begin with the tail of any bypass term. */
  lemma ImproveSecurityNoSuffix(f: string)
    requires f in BypassTerms
    ensures NoSuffixOverlaps(ImproveSecurity, f)
  {
    forall j | 0 <= j < |f|
      ensures !Overlaps(ImproveSecurity, f[j..])
    {
      assert j == 0 || j == 1 || j == 2 || j == 3 || j == 4 || j == 5 || j == 6 || j == 7 || j == 8 || j == 9;
      NotOverlapsByFirstTwo(ImproveSecurity, f[j..]);
    }
  }

  /** No bypass term can straddle or hide inside "improve security". */
  lemma ImproveSecurityIsInert(f: string)
    requires f in BypassTerms
    ensures NoSuffixOverlaps(ImproveSecurity, f) && NoInnerOverlap(ImproveSecurity, f)
  {
    ImproveSecurityNoInner(f);
    ImproveSecurityNoSuffix(f);
  }

  /** The output of `sanitizeHypothetical` contains none of the four bypass
      terms, in any letter case. */
  lemma SanitizeHypotheticalClean(prompt: string)
    ensures forall f :: f in BypassTerms ==> !ContainsCI(SanitizeHypothetical(prompt), f)
  {
    forall f | f in BypassTerms
      ensures !ContainsCI(SanitizeHypothetical(prompt), f)
    {
      ImproveSecurityIsInert(f);
      ReplaceWordsRemoves(prompt, BypassTerms, ImproveSecurity, f);
    }
  }

  // ---------------------------------------------------------------------------
  // Tier priority
  // ---------------------------------------------------------------------------

  /** An override phrase blocks the prompt whatever else it contains. */
  lemma OverrideAlwaysBlocks(prompt: string)
    requires OverrideTier(Lower(prompt))
    ensures CheckPromptSecurity(prompt) == Verdict(Block, OverrideReason, None)
  {
  }

  /** Without an override phrase, any credential term blocks as exfiltration. */
  lemma CredentialBlocks(prompt: string)
    requires !OverrideTier(Lower(prompt)) && CredentialTier(Lower(prompt))
    ensures CheckPromptSecurity(prompt) == Verdict(Block, CredentialReason, None)
  {
  }

  /** A prompt that reaches the role tier is blocked exactly when it names a
      malicious role and sanitised otherwise; it is never allowed. */
  lemma RoleTierNeverAllows(prompt: string)
    requires !OverrideTier(Lower(prompt)) && !CredentialTier(Lower(prompt)) && RoleTier(Lower(prompt))
    ensures CheckPromptSecurity(prompt).verdict != Allow
    ensures CheckPromptSecurity(prompt).verdict == Block <==> MaliciousRole(Lower(prompt))
  {
  }

  /** In the safe-roleplay branch the "sanitised" prompt is the original prompt,
      and it names no malicious role. */
  lemma SafeRoleplayKeepsPrompt(prompt: string)
    requires CheckPromptSecurity(prompt).reason == RoleplayReason
    ensures CheckPromptSecurity(prompt).sanitizedPrompt == Some(prompt)
    ensures forall w :: w in MaliciousRoles ==> !ContainsCI(CheckPromptSecurity(prompt).sanitizedPrompt.value, w)
  {
    var lower := Lower(prompt);
    assert RoleplayReason != OverrideReason && RoleplayReason != CredentialReason;
    assert RoleplayReason != MaliciousRoleplayReason && RoleplayReason != ResetReason;
    assert RoleplayReason != HypotheticalReason && RoleplayReason != AllowReason;
    assert !MaliciousRole(lower);
    SanitizeRoleplayIdentity(prompt);
  }

  /** A context-reset phrase blocks only together with "forget" and "security"
      or "restriction"; otherwise the verdict is the one the hypothetical tier
      and the default give, as if no reset phrase were present. */
  lemma ResetTierIsNarrow(prompt: string)
    requires !OverrideTier(Lower(prompt)) && !CredentialTier(Lower(prompt)) && !RoleTier(Lower(prompt))
    ensures CheckPromptSecurity(prompt).reason == ResetReason <==> ResetTier(Lower(prompt)) && ResetBypass(Lower(prompt))
    ensures !ResetBypass(Lower(prompt)) ==>
      CheckPromptSecurity(prompt) ==
        if HypotheticalTier(Lower(prompt)) then Verdict(Sanitize, HypotheticalReason, Some(SanitizeHypothetical(prompt)))
        else Verdict(Allow, AllowReason, None)
  {
    assert ResetReason != HypotheticalReason && ResetReason != AllowReason;
  }

  /** Hypothetical framing with bypass vocabulary is sanitised, and the
      sanitised prompt carries none of the bypass terms. */
  lemma HypotheticalSanitized(prompt: string)
    requires !OverrideTier(Lower(prompt)) && !CredentialTier(Lower(prompt)) && !RoleTier(Lower(prompt))
    requires !(ResetTier(Lower(prompt)) && ResetBypass(Lower(prompt)))
    requires HypotheticalTier(Lower(prompt))
    ensures CheckPromptSecurity(prompt).verdict == Sanitize
    ensures CheckPromptSecurity(prompt).reason == HypotheticalReason
    ensures forall f :: f in BypassTerms ==> !ContainsCI(CheckPromptSecurity(prompt).sanitizedPrompt.value, f)
  {
    SanitizeHypotheticalClean(prompt);
  }

  /** A prompt is allowed exactly when no tier matches, and then always with
      the same reason. */
  lemma AllowExactlyWhenNoTier(prompt: string)
    ensures var lower := Lower(prompt);
      CheckPromptSecurity(prompt).verdict == Allow <==>
        !OverrideTier(lower) && !CredentialTier(lower) && !RoleTier(lower)
        && !(ResetTier(lower) && ResetBypass(lower)) && !HypotheticalTier(lower)
    ensures CheckPromptSecurity(prompt).verdict == Allow ==>
      CheckPromptSecurity(prompt) == Verdict(Allow, AllowReason, None)
  {
  }

  // ---------------------------------------------------------------------------
  // The scan route
  // ---------------------------------------------------------------------------

  datatype ScanReply =
    | BadRequest(error: string)
    | Scanned(result: Verdict)

  /** `POST /api/airs/scan`: a missing, empty or non-string prompt is refused
      before any classification. The 500 branch is unreachable here because
      `checkPromptSecurity` cannot throw. */
  function ScanRoute(prompt: JsValue): (r: ScanReply)
    ensures r.BadRequest? <==> !(prompt.Str? && prompt.s != "")
    ensures r.BadRequest? ==> r.error == "Invalid prompt"
    ensures r.Scanned? ==> r.result == CheckPromptSecurity(prompt.s)
  {
    if !Truthy(prompt) || !prompt.Str? then BadRequest("Invalid prompt")
    else Scanned(CheckPromptSecurity(prompt.s))
  }

  // ---------------------------------------------------------------------------
  // The mock chat reply
  // ---------------------------------------------------------------------------

  datatype Topic = Products | Pricing | Shipping | Returns | Sizing | Greeting | General

  const ProductWords: seq<string> := ["product", "item"]
  const PricingWords: seq<string> := ["price", "cost", "cheap"]
  const ShippingWords: seq<string> := ["ship", "delivery"]
  const ReturnWords: seq<string> := ["return", "refund", "policy"]
  const SizingWords: seq<string> := ["size", "fit"]
  const GreetingWords: seq<string> := ["hi", "hello", "hey"]

  /** The keyword group that `generateMockResponse` answers: the first group,
      in this order, with a word in the lower-cased prompt. */
  function MockTopic(prompt: string): Topic
  {
    var lower := Lower(prompt);
    if ContainsAny(lower, ProductWords) then Products
    else if ContainsAny(lower, PricingWords) then Pricing
    else if ContainsAny(lower, ShippingWords) then Shipping
    else if ContainsAny(lower, ReturnWords) then Returns
    else if ContainsAny(lower, SizingWords) then Sizing
    else if ContainsAny(lower, GreetingWords) then Greeting
    else General
  }

  function ReplyText(t: Topic): string
  {
    match t
    case Products => "We have 6 great items available: Minimal Hoodie ($49.99), Everyday Sneakers ($79.99), Slim Jeans ($59.99), Casual Shirt ($39.99), Eco Tote ($19.99), and Beanie ($14.99). What interests you?"
    case Pricing => "Our items range from $14.99 to $79.99. Everything is designed with minimalist aesthetics and quality in mind. Would you like specific pricing information?"
    case Shipping => "We offer free shipping on orders over $50. Standard delivery takes 3-5 business days. We also offer expedited options at checkout."
    case Returns => "We have a 30-day return policy. If you're not satisfied, return the item in original condition for a full refund. No questions asked."
    case Sizing => "Sizing varies by product. Clothing (Hoodie, Shirt) uses S/M/L. Sneakers use EU sizes (40-43). Jeans use waist sizes (30/32/34). Check the product page for exact options."
    case Greeting => "Hello! Welcome to our store. I'm here to help you find the perfect item or answer any questions about our products, shipping, and policies."
    case General => "I'm here to help with any questions about our products, sizing, shipping, returns, or anything else related to shopping with us. What can I assist with?"
  }

  /** `generateMockResponse` */
  function GenerateMockResponse(prompt: string): string
  {
    ReplyText(MockTopic(prompt))
  }

  /** The reply is chosen by fixed keyword priority: a group answers exactly
      when one of its words is in the lower-cased prompt and no earlier group's is. */
  lemma MockResponsePriority(prompt: string)
    ensures var lower := Lower(prompt); var t := MockTopic(prompt);
      && (t == Products <==> ContainsAny(lower, ProductWords))
      && (t == Pricing <==> !ContainsAny(lower, ProductWords) && ContainsAny(lower, PricingWords))
      && (t == Shipping <==>
            !ContainsAny(lower, ProductWords) && !ContainsAny(lower, PricingWords) && ContainsAny(lower, ShippingWords))
      && (t == Returns <==>
            !ContainsAny(lower, ProductWords) && !ContainsAny(lower, PricingWords) && !ContainsAny(lower, ShippingWords)
            && ContainsAny(lower, ReturnWords))
      && (t == Sizing <==>
            !ContainsAny(lower, ProductWords) && !ContainsAny(lower, PricingWords) && !ContainsAny(lower, ShippingWords)
            && !ContainsAny(lower, ReturnWords) && ContainsAny(lower, SizingWords))
      && (t == Greeting <==>
            !ContainsAny(lower, ProductWords) && !ContainsAny(lower, PricingWords) && !ContainsAny(lower, ShippingWords)
            && !ContainsAny(lower, ReturnWords) && !ContainsAny(lower, SizingWords) && ContainsAny(lower, GreetingWords))
      && (t == General <==>
            !ContainsAny(lower, ProductWords) && !ContainsAny(lower, PricingWords) && !ContainsAny(lower, ShippingWords)
            && !ContainsAny(lower, ReturnWords) && !ContainsAny(lower, SizingWords) && !ContainsAny(lower, GreetingWords))
  {
  }
}
