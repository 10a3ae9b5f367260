/** Where server/modelChecker.js sends its Ollama connectivity probe: the
    configured `OLLAMA_API_URL` with any trailing API path removed, followed by
    "/api/tags". */
module OllamaUrl {
  import opened Common
  import opened Text

  /** `/\/api\/?.*$/` matches at `i`: "/api" starts there and the rest of the
      string, to its very end, holds no line terminator for `.` to stop at. */
  predicate ApiMatchAt(s: string, i: int)
  {
    OccursAt(s, "/api", i) && NoLineTerminator(s[i + 4..], EcmaScript)
  }

  /** The leftmost match at or after `from`. */
  function ApiMatchFrom(s: string, from: nat): (r: Option<nat>)
    decreases |s| - from
    ensures r.Some? ==> from <= r.value && ApiMatchAt(s, r.value)
    ensures forall j :: from <= j && (r.None? || j < r.value) ==> !ApiMatchAt(s, j)
  {
    if from + 4 > |s| then None
    else if ApiMatchAt(s, from) then Some(from)
    else ApiMatchFrom(s, from + 1)
  }

  /** `raw.replace(/\/api\/?.*$/, '')`: cut the string at the leftmost match. */
  function OllamaBase(raw: string): string
  {
    match ApiMatchFrom(raw, 0)
    case Some(i) => raw[..i]
    case None => raw
  }

  const DefaultOllamaUrl := "http://ollama:11434"

  /** The URL `checkOllamaConnectivity` probes. */
  function OllamaTagsUrl(ollamaApiUrl: Option<string>): string
  {
    OllamaBase(OrElse(ollamaApiUrl, DefaultOllamaUrl)) + "/api/tags"
  }

  /** The base is a prefix of the configured URL; either nothing was cut, or
      what was cut starts with "/api" and runs to the end on one line, and no
      earlier "/api" could have been cut instead. */
  lemma OllamaBaseCut(raw: string)
    ensures var base := OllamaBase(raw);
      && base <= raw
      && (base == raw <==> forall j :: !ApiMatchAt(raw, j))
      && (base != raw ==> ApiMatchAt(raw, |base|) && forall j :: 0 <= j < |base| ==> !ApiMatchAt(raw, j))
  {
    var r := ApiMatchFrom(raw, 0);
    if r.Some? {
      assert OllamaBase(raw) == raw[..r.value];
      assert |raw[..r.value]| < |raw|;
    }
  }

  /** On a one-line URL the base holds no "/api" at all. */
  lemma OllamaBaseHasNoApi(raw: string)
    requires NoLineTerminator(raw, EcmaScript)
    ensures !Contains(OllamaBase(raw), "/api")
  {
    var base := OllamaBase(raw);
    OllamaBaseCut(raw);
    if Contains(base, "/api") {
      var j :| 0 <= j <= |base| && OccursAt(base, "/api", j);
      assert raw[j..j + 4] == base[j..j + 4];
      assert OccursAt(raw, "/api", j);
      assert ApiMatchAt(raw, j);
      assert false;
    }
  }

  /** Normalising twice changes nothing more. */
  lemma OllamaBaseIdempotent(raw: string)
    requires NoLineTerminator(raw, EcmaScript)
    ensures OllamaBase(OllamaBase(raw)) == OllamaBase(raw)
  {
    var base := OllamaBase(raw);
    OllamaBaseHasNoApi(raw);
  }

  /** A URL that already points at an API path is normalised to its tags
      endpoint: "<base>/api/chat" and "<base>/api" both probe "<base>/api/tags". */
  lemma OllamaTagsUrlFromApiPath(base: string, path: string)
    requires NoLineTerminator(base, EcmaScript) && NoLineTerminator(path, EcmaScript)
    requires !Contains(base, "/api")
    ensures OllamaBase(base + "/api" + path) == base
  {
    var raw := base + "/api" + path;
    assert raw[|base|..|base| + 4] == "/api";
    assert raw[|base| + 4..] == path;
    assert ApiMatchAt(raw, |base|);
    forall j | 0 <= j < |base|
      ensures !ApiMatchAt(raw, j)
    {
      if OccursAt(raw, "/api", j) {
        assert raw[|base|] == '/';
        if j + 4 <= |base| {
          assert base[j..j + 4] == raw[j..j + 4];
          assert OccursAt(base, "/api", j);
        }
      }
    }
    var r := ApiMatchFrom(raw, 0);
    assert r == Some(|base|);
  }

  /** The probe URL for a configured "<base>/api<path>" is "<base>/api/tags";
      an unset or empty variable probes the default host. */
  lemma ProbeUrl(base: string, path: string)
    requires NoLineTerminator(base, EcmaScript) && NoLineTerminator(path, EcmaScript)
    requires !Contains(base, "/api")
    ensures OllamaTagsUrl(Some(base + "/api" + path)) == base + "/api/tags"
    ensures OllamaTagsUrl(Some("")) == OllamaTagsUrl(None) == OllamaBase(DefaultOllamaUrl) + "/api/tags"
  {
    OllamaTagsUrlFromApiPath(base, path);
  }
}
