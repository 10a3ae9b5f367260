/** The PHP twin of the demo backend: `handleAirsScan`'s request check, the
    `stripos` rule engine, `preg_replace`/`str_ireplace` sanitisers, the mock
    chat reply, and the response mapping of `scanWithAIRS`. The verdict record,
    keyword lists and messages are shared with the Node version. */
module PhpBackend {
  import opened Common
  import opened Text
  import opened PromptRules

  // ---------------------------------------------------------------------------
  // `stripos`
  // ---------------------------------------------------------------------------

  /** `stripos($haystack, $needle)`: the first position of `needle` in
      `haystack`, both lower-cased; `None` stands for PHP's `false`. */
  function Stripos(haystack: string, needle: string): (r: Option<nat>)
    ensures r.Some? <==> ContainsCI(haystack, Lower(needle))
    ensures r.Some? ==> OccursAt(Lower(haystack), Lower(needle), r.value)
    ensures r.Some? ==> forall j :: 0 <= j < r.value ==> !OccursAt(Lower(haystack), Lower(needle), j)
  {
    IndexOf(Lower(haystack), Lower(needle))
  }

  /** An `||` chain of `stripos(...) !== false` tests. */
  predicate Found(lower: string, ws: seq<string>)
  {
    exists w :: w in ws && Stripos(lower, w).Some?
  }

  predicate AllLower(ws: seq<string>)
  {
    forall w :: w in ws ==> IsLower(w)
  }

  /** On the output of `strtolower`, `stripos` with a lower-case needle is
      plain substring search, so the PHP tests agree with JavaScript's `includes`. */
  lemma FoundIsContainsAny(prompt: string, ws: seq<string>)
    requires AllLower(ws)
    ensures Found(Lower(prompt), ws) <==> ContainsAny(Lower(prompt), ws)
  {
    LowerIdempotent(prompt);
    forall w | w in ws
      ensures Lower(w) == w
    {
      LowerOfLower(w);
    }
  }

  // The override phrases are the longest literals; checking each in a lemma
  // of its own keeps every character-by-character check small.

  lemma LongOverridePhrasesLower()
    ensures IsLower("ignore your system prompt")
    ensures IsLower("forget all previous instructions")
  {
  }

  lemma OverridePhrasesLower()
    ensures AllLower(OverridePhrases)
  {
    LongOverridePhrasesLower();
    assert IsLower("disregard the above");
    assert IsLower("override instructions");
  }

  lemma CredentialTermsLower()
    ensures AllLower(CredentialTerms)
  {
    assert IsLower("api key");
    assert IsLower("secret");
    assert IsLower("password");
    assert IsLower("database");
    assert IsLower("credentials");
  }

  lemma RolePhrasesLower()
    ensures AllLower(RolePhrases)
  {
    assert IsLower("you are now");
    assert IsLower("pretend to be");
    assert IsLower("act as a");
    assert IsLower("roleplay as");
  }

  lemma MaliciousRolesLower()
    ensures AllLower(MaliciousRoles)
  {
    assert IsLower("hacker");
    assert IsLower("malware");
    assert IsLower("criminal");
    assert IsLower("fraud");
  }

  lemma ResetPhrasesLower()
    ensures AllLower(ResetPhrases)
  {
    assert IsLower("[reset");
    assert IsLower("reset context");
    assert IsLower("new conversation");
    assert IsLower("start over");
  }

  lemma HypotheticalPhrasesLower()
    ensures AllLower(HypotheticalPhrases)
  {
    assert IsLower("in a hypothetical");
    assert IsLower("suppose");
    assert IsLower("imagine");
  }

  lemma BypassTermsLower()
    ensures AllLower(BypassTerms)
  {
    assert IsLower("bypass");
    assert IsLower("circumvent");
    assert IsLower("hack");
    assert IsLower("exploit");
  }

  lemma ProductWordsLower()
    ensures AllLower(ProductWords)
  {
    assert IsLower("product");
    assert IsLower("item");
  }

  lemma PricingWordsLower()
    ensures AllLower(PricingWords)
  {
    assert IsLower("price");
    assert IsLower("cost");
    assert IsLower("cheap");
  }

  lemma ShippingWordsLower()
    ensures AllLower(ShippingWords)
  {
    assert IsLower("ship");
    assert IsLower("delivery");
  }

  lemma ReturnWordsLower()
    ensures AllLower(ReturnWords)
  {
    assert IsLower("return");
    assert IsLower("refund");
    assert IsLower("policy");
  }

  lemma SizingWordsLower()
    ensures AllLower(SizingWords)
  {
    assert IsLower("size");
    assert IsLower("fit");
  }

  lemma GreetingWordsLower()
    ensures AllLower(GreetingWords)
  {
    assert IsLower("hi");
    assert IsLower("hello");
    assert IsLower("hey");
  }

  lemma ResetWordsLower()
    ensures AllLower(["forget"]) && AllLower(["security"]) && AllLower(["restriction"])
  {
  }

  // ---------------------------------------------------------------------------
  // Sanitisers
  // ---------------------------------------------------------------------------

  lemma PcreHeadsValid()
    ensures ValidHeads(ClauseHeads(YouAreNow), Pcre)
    ensures ValidHeads(ClauseHeads(ActAs), Pcre)
  {
    LeadsPlain();
    ClauseHeadsValid(YouAreNow, Pcre);
    ClauseHeadsValid(ActAs, Pcre);
  }

  /** `sanitizeRoleplay`: `preg_replace` with two patterns applies them in turn,
      and both clauses become "you are a helpful assistant". PCRE's `.` stops
      only at a line feed. */
  function SanitizeRoleplay(prompt: string): string
  {
    PcreHeadsValid();
    var once := ReplaceClauses(prompt, ClauseHeads(YouAreNow), YouAreHelpful, Pcre);
    ReplaceClauses(once, ClauseHeads(ActAs), YouAreHelpful, Pcre)
  }

  /** `str_ireplace($search, $replace, $subject)` with an array of search words:
      each word in turn has all its case-insensitive occurrences replaced. */
  function StrIReplace(search: seq<string>, rep: string, subject: string): string
    requires NonEmptyWords(search)
    decreases |search|
  {
    if search == [] then subject
    else StrIReplace(search[1..], rep, ReplaceWords(subject, [search[0]], rep))
  }

  /** `sanitizeHypothetical` */
  function SanitizeHypothetical(prompt: string): string
  {
    StrIReplace(BypassTerms, ImproveSecurity, prompt)
  }

  predicate Inert(rep: string, f: string)
  {
    NoSuffixOverlaps(rep, f) && NoInnerOverlap(rep, f)
  }

  /** A word absent from the subject stays absent through every pass, provided
      the replacement can neither contain it nor complete it. */
  lemma {:induction false} StrIReplaceNoNew(search: seq<string>, rep: string, subject: string, f: string)
    requires NonEmptyWords(search) && f != [] && Inert(rep, f)
    requires !ContainsCI(subject, f)
    ensures !ContainsCI(StrIReplace(search, rep, subject), f)
    decreases |search|
  {
    if search != [] {
      var next := ReplaceWords(subject, [search[0]], rep);
      ReplaceWordsNoNew(subject, [search[0]], rep, f);
      StrIReplaceNoNew(search[1..], rep, next, f);
    }
  }

  /** Every search word is absent from the result of `str_ireplace`. */
  lemma {:induction false} StrIReplaceRemoves(search: seq<string>, rep: string, subject: string, f: string)
    requires NonEmptyWords(search) && f in search
    requires forall g :: g in search ==> Inert(rep, g)
    ensures !ContainsCI(StrIReplace(search, rep, subject), f)
    decreases |search|
  {
    var next := ReplaceWords(subject, [search[0]], rep);
    if f == search[0] {
      ReplaceWordsRemoves(subject, [f], rep, f);
      StrIReplaceNoNew(search[1..], rep, next, f);
    } else {
      StrIReplaceRemoves(search[1..], rep, next, f);
    }
  }

  /** The output of `sanitizeHypothetical` holds none of the four bypass words. */
  lemma SanitizeHypotheticalClean(prompt: string)
    ensures forall f :: f in BypassTerms ==> !ContainsCI(SanitizeHypothetical(prompt), f)
  {
    forall g | g in BypassTerms
      ensures Inert(ImproveSecurity, g)
    {
      ImproveSecurityIsInert(g);
    }
    forall f | f in BypassTerms
      ensures !ContainsCI(SanitizeHypothetical(prompt), f)
    {
      StrIReplaceRemoves(BypassTerms, ImproveSecurity, prompt, f);
    }
  }

  /** On a one-line prompt that opens with "act as a <role>" and never says
      "you are now", the Node sanitiser restores "act as a helpful assistant"
      while the PHP one answers "you are a helpful assistant". */
  lemma RoleplayRewriteDiffers(prompt: string, w: string)
    requires w in MaliciousRoles
    requires StartsWithCI(prompt, ActAs + " a " + w)
    requires NoLineTerminator(prompt, EcmaScript)
    requires !ContainsCI(prompt, YouAreNow)
    ensures PromptRules.SanitizeRoleplay(prompt) == ActAsHelpful
    ensures SanitizeRoleplay(prompt) == YouAreHelpful
  {
    RoleplayHeadsValid();
    PcreHeadsValid();
    NoLineTerminatorPcre(prompt);
    NoLeadNoClause(prompt, YouAreNow);
    ReplaceClausesIdentity(prompt, ClauseHeads(YouAreNow), YouAreHelpful, EcmaScript);
    ReplaceClausesIdentity(prompt, ClauseHeads(YouAreNow), YouAreHelpful, Pcre);
    ClauseOpensPrompt(prompt, w);
    ReplaceClausesWholeLine(prompt, ClauseHeads(ActAs), ActAsHelpful, EcmaScript);
    ReplaceClausesWholeLine(prompt, ClauseHeads(ActAs), YouAreHelpful, Pcre);
  }

  /** Without the lead phrase there is no clause either. */
  lemma NoLeadNoClause(prompt: string, lead: string)
    requires !ContainsCI(prompt, lead)
    ensures forall h :: h in ClauseHeads(lead) ==> !ContainsCI(prompt, h)
  {
    forall h | h in ClauseHeads(lead)
      ensures !ContainsCI(prompt, h)
    {
      ClauseHeadsShape(lead, h);
      var sep, r :| sep in RoleSeparators && r in MaliciousRoles && h == lead + sep + r;
      if ContainsCI(prompt, h) {
        ContainsPrefix(Lower(prompt), lead + sep, r);
        ContainsPrefix(Lower(prompt), lead, sep);
      }
    }
  }

  lemma ClauseOpensPrompt(prompt: string, w: string)
    requires w in MaliciousRoles
    requires StartsWithCI(prompt, ActAs + " a " + w)
    ensures FirstMatch(prompt, ClauseHeads(ActAs)).Some?
  {
    assert ActAs + " a " + w in ClauseHeads(ActAs);
  }

  // ---------------------------------------------------------------------------
  // The rule engine
  // ---------------------------------------------------------------------------

  /** `checkPromptSecurity`, an if-chain over `stripos` on `strtolower($prompt)`. */
  function CheckPromptSecurity(prompt: string): (v: Verdict)
    ensures v.sanitizedPrompt.Some? <==> v.verdict == Sanitize
    ensures v.reason != ""
  {
    var lower := Lower(prompt);
    if Found(lower, OverridePhrases) then
      Verdict(Block, OverrideReason, None)
    else if Found(lower, CredentialTerms) then
      Verdict(Block, CredentialReason, None)
    else if Found(lower, RolePhrases) then
      if Found(lower, MaliciousRoles) then Verdict(Block, MaliciousRoleplayReason, None)
      else Verdict(Sanitize, RoleplayReason, Some(SanitizeRoleplay(prompt)))
    else if Found(lower, ResetPhrases) && Stripos(lower, "forget").Some?
         && (Stripos(lower, "security").Some? || Stripos(lower, "restriction").Some?) then
      Verdict(Block, ResetReason, None)
    else if Found(lower, HypotheticalPhrases) && Found(lower, BypassTerms) then
      Verdict(Sanitize, HypotheticalReason, Some(SanitizeHypothetical(prompt)))
    else
      Verdict(Allow, AllowReason, None)
  }

  /** Each PHP tier test agrees with the corresponding Node test. */
  lemma TiersAgree(prompt: string)
    ensures var lower := Lower(prompt);
      && (Found(lower, OverridePhrases) <==> OverrideTier(lower))
      && (Found(lower, CredentialTerms) <==> CredentialTier(lower))
      && (Found(lower, RolePhrases) <==> RoleTier(lower))
      && (Found(lower, MaliciousRoles) <==> MaliciousRole(lower))
      && (Found(lower, ResetPhrases) <==> ResetTier(lower))
      && (Found(lower, HypotheticalPhrases) && Found(lower, BypassTerms) <==> HypotheticalTier(lower))
  {
    OverridePhrasesLower();
    CredentialTermsLower();
    RolePhrasesLower();
    MaliciousRolesLower();
    ResetPhrasesLower();
    HypotheticalPhrasesLower();
    BypassTermsLower();
    FoundIsContainsAny(prompt, OverridePhrases);
    FoundIsContainsAny(prompt, CredentialTerms);
    FoundIsContainsAny(prompt, RolePhrases);
    FoundIsContainsAny(prompt, MaliciousRoles);
    FoundIsContainsAny(prompt, ResetPhrases);
    FoundIsContainsAny(prompt, HypotheticalPhrases);
    FoundIsContainsAny(prompt, BypassTerms);
  }

  /** The PHP reset-bypass test agrees with the Node one. */
  lemma ResetBypassAgrees(prompt: string)
    ensures var lower := Lower(prompt);
      (Stripos(lower, "forget").Some? && (Stripos(lower, "security").Some? || Stripos(lower, "restriction").Some?))
      <==> ResetBypass(lower)
  {
    var lower := Lower(prompt);
    ResetWordsLower();
    FoundIsContainsAny(prompt, ["forget"]);
    FoundIsContainsAny(prompt, ["security"]);
    FoundIsContainsAny(prompt, ["restriction"]);
    assert Found(lower, ["forget"]) <==> Stripos(lower, "forget").Some?;
    assert Found(lower, ["security"]) <==> Stripos(lower, "security").Some?;
    assert Found(lower, ["restriction"]) <==> Stripos(lower, "restriction").Some?;
    assert ContainsAny(lower, ["forget"]) <==> Contains(lower, "forget");
    assert ContainsAny(lower, ["security"]) <==> Contains(lower, "security");
    assert ContainsAny(lower, ["restriction"]) <==> Contains(lower, "restriction");
  }

  /** On a prompt naming no malicious role the PHP roleplay sanitiser is the identity. */
  lemma SanitizeRoleplayIdentity(prompt: string)
    requires !MaliciousRole(Lower(prompt))
    ensures SanitizeRoleplay(prompt) == prompt
  {
    PcreHeadsValid();
    NoRoleNoClause(prompt, YouAreNow);
    ReplaceClausesIdentity(prompt, ClauseHeads(YouAreNow), YouAreHelpful, Pcre);
    NoRoleNoClause(prompt, ActAs);
    ReplaceClausesIdentity(prompt, ClauseHeads(ActAs), YouAreHelpful, Pcre);
  }

  /** The PHP engine gives the Node engine's verdict and reason on every prompt. */
  lemma SameVerdictAsNode(prompt: string)
    ensures CheckPromptSecurity(prompt).verdict == PromptRules.CheckPromptSecurity(prompt).verdict
    ensures CheckPromptSecurity(prompt).reason == PromptRules.CheckPromptSecurity(prompt).reason
  {
    TiersAgree(prompt);
    ResetBypassAgrees(prompt);
  }

  /** In the roleplay branch both engines hand back the prompt itself; in the
      hypothetical branch each hands back its own sanitiser's output, which
      `SanitizeHypotheticalClean` shows free of bypass words in both. */
  lemma SameSanitizedAsNode(prompt: string)
    ensures CheckPromptSecurity(prompt).reason == RoleplayReason ==>
      CheckPromptSecurity(prompt).sanitizedPrompt == PromptRules.CheckPromptSecurity(prompt).sanitizedPrompt == Some(prompt)
    ensures CheckPromptSecurity(prompt).reason == HypotheticalReason ==>
      && CheckPromptSecurity(prompt).sanitizedPrompt == Some(SanitizeHypothetical(prompt))
      && PromptRules.CheckPromptSecurity(prompt).sanitizedPrompt == Some(PromptRules.SanitizeHypothetical(prompt))
  {
    SameVerdictAsNode(prompt);
    if CheckPromptSecurity(prompt).reason == RoleplayReason {
      TiersAgree(prompt);
      SanitizeRoleplayIdentity(prompt);
      PromptRules.SafeRoleplayKeepsPrompt(prompt);
    }
    if CheckPromptSecurity(prompt).reason == HypotheticalReason {
      assert HypotheticalReason != OverrideReason && HypotheticalReason != CredentialReason;
      assert HypotheticalReason != MaliciousRoleplayReason && HypotheticalReason != ResetReason;
      assert HypotheticalReason != RoleplayReason && HypotheticalReason != AllowReason;
    }
  }

  // ---------------------------------------------------------------------------
  // `handleAirsScan`
  // ---------------------------------------------------------------------------

  /** PHP's `isset`: present and not null. */
  predicate IsSetValue(v: JsValue)
  {
    !v.Undefined? && !v.Null?
  }

  /** `handleAirsScan`: the request's `prompt` field must be set and a string;
      the empty string passes. `Undefined` stands for an absent field or an
      undecodable body. The 500 branch is unreachable because the rule engine
      cannot throw. */
  function HandleAirsScan(prompt: JsValue): (r: ScanReply)
    ensures r.BadRequest? <==> !prompt.Str?
    ensures r.BadRequest? ==> r.error == "Invalid prompt"
    ensures r.Scanned? ==> r.result == CheckPromptSecurity(prompt.s)
  {
    if !IsSetValue(prompt) || !prompt.Str? then BadRequest("Invalid prompt")
    else Scanned(CheckPromptSecurity(prompt.s))
  }

  /** The empty prompt, refused by the Node route, is scanned by PHP and allowed. */
  lemma EmptyPromptAllowed()
    ensures HandleAirsScan(Str("")) == Scanned(Verdict(Allow, AllowReason, None))
    ensures ScanRoute(Str("")).BadRequest?
  {
    assert Lower("") == "";
    NoWordInEmpty(OverridePhrases);
    NoWordInEmpty(CredentialTerms);
    NoWordInEmpty(RolePhrases);
    NoWordInEmpty(ResetPhrases);
    NoWordInEmpty(HypotheticalPhrases);
    TiersAgree("");
  }

  lemma NoWordInEmpty(ws: seq<string>)
    requires NonEmptyWords(ws)
    ensures !ContainsAny("", ws)
  {
  }

  // ---------------------------------------------------------------------------
  // The mock chat reply
  // ---------------------------------------------------------------------------

  function MockTopic(prompt: string): Topic
  {
    var lower := Lower(prompt);
    if Found(lower, ProductWords) then Products
    else if Found(lower, PricingWords) then Pricing
    else if Found(lower, ShippingWords) then Shipping
    else if Found(lower, ReturnWords) then Returns
    else if Found(lower, SizingWords) then Sizing
    else if Found(lower, GreetingWords) then Greeting
    else General
  }

  /** `generateMockResponse` */
  function GenerateMockResponse(prompt: string): string
  {
    ReplyText(MockTopic(prompt))
  }

  /** The PHP reply picks the same keyword group, hence the same text, as the
      Node reply for every prompt. */
  lemma SameReplyAsNode(prompt: string)
    ensures MockTopic(prompt) == PromptRules.MockTopic(prompt)
    ensures GenerateMockResponse(prompt) == PromptRules.GenerateMockResponse(prompt)
  {
    ProductWordsLower();
    PricingWordsLower();
    ShippingWordsLower();
    ReturnWordsLower();
    SizingWordsLower();
    GreetingWordsLower();
    FoundIsContainsAny(prompt, ProductWords);
    FoundIsContainsAny(prompt, PricingWords);
    FoundIsContainsAny(prompt, ShippingWords);
    FoundIsContainsAny(prompt, ReturnWords);
    FoundIsContainsAny(prompt, SizingWords);
    FoundIsContainsAny(prompt, GreetingWords);
  }

  // ---------------------------------------------------------------------------
  // `scanWithAIRS`
  // ---------------------------------------------------------------------------

  /** What the cURL call produced: the HTTP code and the decoded body's fields
      (`Undefined` for a missing field or an undecodable body). */
  datatype AirsHttpReply = AirsHttpReply(httpCode: int, status: JsValue, details: JsValue, sanitized: JsValue)

  datatype RemoteScan =
    | ScanFailed(message: string)
    | RemoteVerdict(verdict: JsValue, reason: JsValue, sanitizedPrompt: JsValue)

  /** Reading an array key PHP does not find (or any key of the `null` an
      undecodable body decodes to) gives `null`. */
  function PhpRead(v: JsValue): (r: JsValue)
    ensures !r.Undefined?
    ensures !v.Undefined? ==> r == v
  {
    if v.Undefined? then Null else v
  }

  /** `scanWithAIRS`: any status but 200 throws; otherwise the body is mapped
      field by field, with `null` for a missing field and for a sanitised
      prompt that is not set. */
  function ScanWithAirs(reply: AirsHttpReply): (r: RemoteScan)
    ensures r.ScanFailed? <==> reply.httpCode != 200
    ensures r.ScanFailed? ==> r.message == "AIRS API request failed"
    ensures r.RemoteVerdict? ==> r.verdict == PhpRead(reply.status) && r.reason == PhpRead(reply.details)
    ensures r.RemoteVerdict? ==> (r.sanitizedPrompt == reply.sanitized || (r.sanitizedPrompt == Null && !IsSetValue(reply.sanitized)))
    ensures r.RemoteVerdict? ==> !r.verdict.Undefined? && !r.reason.Undefined? && !r.sanitizedPrompt.Undefined?
  {
    if reply.httpCode != 200 then ScanFailed("AIRS API request failed")
    else RemoteVerdict(PhpRead(reply.status), PhpRead(reply.details), if IsSetValue(reply.sanitized) then reply.sanitized else Null)
  }
}
