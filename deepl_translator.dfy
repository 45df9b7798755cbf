/** backend/translators/deepl_translator.py: the DeepL adapter. The module
    keeps one global client, set by `init_deepl_client`; `translate_with_deepl`
    checks the library and the client, rewrites the language codes DeepL's way
    and calls the service. The service is a parameter. */
module DeepLTranslator {
  import opened Wrappers
  import opened Text
  import opened Backends

  /** A constructed `deepl.Translator`, identified by the key it was built with. */
  datatype DeepLClient = DeepLClient(authKey: string)

  /** The arguments of `translate_text`: the text, the source code (None asks
      DeepL to detect the language) and the target code. */
  datatype DeepLRequest = DeepLRequest(text: string, sourceLang: Option<string>, targetLang: string)

  /** The DeepL service: what `client.translate_text(request)` does. */
  type DeepLService = (DeepLClient, DeepLRequest) -> BackendOutcome

  const NotInstalledDetail := "DeepL이 설치되지 않았습니다. deepl 패키지를 설치하세요."
  const NotInitialisedDetail := "DeepL 클라이언트가 초기화되지 않았습니다. DEEPL_API_KEY를 확인하세요."
  const FailurePrefix := "DeepL 번역 실패: "

  /** The target code sent to DeepL: upper-cased first, then the two bare
      codes DeepL wants with a region, EN and PT, get one. The result starts
      with the upper-cased input, has no lower-case ASCII letter, and is never
      a bare EN or PT. */
  function TargetCode(target: string): (code: string)
    ensures IsPrefix(Upper(target), code)
    ensures forall i :: 0 <= i < |code| ==> !('a' <= code[i] <= 'z')
    ensures code != "EN" && code != "PT"
  {
    var upper := Upper(target);
    if upper == "EN" then "EN-US"
    else if upper == "PT" then "PT-BR"
    else upper
  }

  /** The source code sent to DeepL: exactly "auto" means "let DeepL detect
      it" (no source); anything else is upper-cased and never given a region. */
  function SourceCode(source: string): (code: Option<string>)
    ensures code.None? <==> source == "auto"
    ensures code.Some? ==> |code.value| == |source|
    ensures code.Some? ==> forall i :: 0 <= i < |source| ==> code.value[i] == UpperChar(source[i])
  {
    if source != "auto" then Some(Upper(source)) else None
  }

  /** The three rewriting rules for the target, for every input. */
  lemma TargetCodeRules(target: string)
    ensures Upper(target) == "EN" ==> TargetCode(target) == "EN-US"
    ensures Upper(target) == "PT" ==> TargetCode(target) == "PT-BR"
    ensures Upper(target) != "EN" && Upper(target) != "PT" ==> TargetCode(target) == Upper(target)
  {
  }

  /** Both spellings of English and Portuguese get their regional variant;
      other codes are only upper-cased. */
  lemma TargetCodeExamples()
    ensures TargetCode("en") == "EN-US" && TargetCode("EN") == "EN-US"
    ensures TargetCode("pt") == "PT-BR" && TargetCode("PT") == "PT-BR"
    ensures TargetCode("ko") == "KO" && TargetCode("en-gb") == "EN-GB"
  {
    TargetCodeEnglish();
    TargetCodePortuguese();
    TargetCodeOthers();
  }

  lemma TargetCodeEnglish()
    ensures TargetCode("en") == "EN-US" && TargetCode("EN") == "EN-US"
  {
    assert Upper("en") == "EN" && Upper("EN") == "EN";
  }

  lemma TargetCodePortuguese()
    ensures TargetCode("pt") == "PT-BR" && TargetCode("PT") == "PT-BR"
  {
    assert Upper("pt") == "PT" && Upper("PT") == "PT";
  }

  lemma TargetCodeOthers()
    ensures TargetCode("ko") == "KO" && TargetCode("en-gb") == "EN-GB"
  {
    assert Upper("ko") == "KO" && Upper("en-gb") == "EN-GB";
  }

  /** Rewriting an already rewritten target changes nothing. */
  lemma TargetCodeIdempotent(target: string)
    ensures TargetCode(TargetCode(target)) == TargetCode(target)
  {
    var code := TargetCode(target);
    UpperOfUpperCase(code);
  }

  /** The source is never regionally rewritten, and the "auto" sentinel is case-sensitive. */
  lemma SourceCodeExamples()
    ensures SourceCode("auto") == None
    ensures SourceCode("en") == Some("EN") && SourceCode("pt") == Some("PT")
    ensures SourceCode("AUTO") == Some("AUTO") && SourceCode("Auto") == Some("AUTO")
  {
    assert Upper("en") == "EN" && Upper("pt") == "PT";
    assert Upper("AUTO") == "AUTO" && Upper("Auto") == "AUTO";
  }

  /** `translate_with_deepl`, with the module's `DEEPL_AVAILABLE` flag and
      global client passed in. The library check comes first, then the client
      check (both 503, neither calls the service); otherwise the service gets
      the rewritten codes, its text comes back unchanged, and whatever it raises
      becomes a 500 carrying the message. */
  function TranslateWithDeepL(available: bool, client: Option<DeepLClient>, text: string,
                              source: string, target: string, service: DeepLService): (r: Result<string, HttpError>)
    ensures !available ==> r == Failure(HttpError(503, NotInstalledDetail))
    ensures available && client.None? ==> r == Failure(HttpError(503, NotInitialisedDetail))
    ensures available && client.Some? ==>
      var outcome := service(client.value, DeepLRequest(text, SourceCode(source), TargetCode(target)));
      && (outcome.Returned? ==> r == Success(outcome.content))
      && (outcome.Raised? ==> r == Failure(HttpError(500, FailurePrefix + outcome.message)))
    ensures r.Failure? ==> r.error.status == 503 || r.error.status == 500
  {
    if !available then
      Failure(HttpError(503, NotInstalledDetail))
    else if client.None? then
      Failure(HttpError(503, NotInitialisedDetail))
    else
      match service(client.value, DeepLRequest(text, SourceCode(source), TargetCode(target)))
      case Returned(translated) => Success(translated)
      case Raised(message) => Failure(HttpError(500, FailurePrefix + message))
  }

  /** Without the library or without a client the service is never consulted:
      the outcome is the same whatever the service would have done. */
  lemma UnconfiguredNeverCallsService(available: bool, client: Option<DeepLClient>, text: string,
                                      source: string, target: string, s1: DeepLService, s2: DeepLService)
    requires !available || client.None?
    ensures TranslateWithDeepL(available, client, text, source, target, s1)
         == TranslateWithDeepL(available, client, text, source, target, s2)
    ensures TranslateWithDeepL(available, client, text, source, target, s1).Failure?
  {
  }

  /** A target of "en" reaches the service as "EN-US", never as "EN". */
  lemma EnglishTargetSentAsEnUs(c: DeepLClient, text: string, source: string, service: DeepLService)
    ensures TranslateWithDeepL(true, Some(c), text, source, "en", service)
         == match service(c, DeepLRequest(text, SourceCode(source), "EN-US"))
            case Returned(t) => Success(t)
            case Raised(m) => Failure(HttpError(500, FailurePrefix + m))
  {
    TargetCodeExamples();
  }

  /** What `init_deepl_client` leaves in the global client, given whether the
      library is installed, the DEEPL_API_KEY setting (None when unset; the
      empty string counts as unset), whether `deepl.Translator(key)` raises,
      and the client before the call. A new client only ever comes from the
      given key, and an existing client is only ever dropped when construction
      raises. */
  function InitOutcome(available: bool, apiKey: Option<string>, constructorRaises: bool,
                       current: Option<DeepLClient>): (next: Option<DeepLClient>)
    ensures next.Some? && next != current ==> available && apiKey == Some(next.value.authKey)
    ensures next.None? && current.Some? ==> constructorRaises
    ensures !available || apiKey.None? || apiKey == Some("") ==> next == current
    ensures available && apiKey.Some? && apiKey.value != "" ==>
              next == (if constructorRaises then None else Some(DeepLClient(apiKey.value)))
  {
    if !available then current
    else if apiKey.None? || apiKey.value == "" then current
    else if constructorRaises then None
    else Some(DeepLClient(apiKey.value))
  }

  /** Initialising again under the same conditions gives the same client. */
  lemma InitOutcomeIdempotent(available: bool, apiKey: Option<string>, constructorRaises: bool,
                              current: Option<DeepLClient>)
    ensures var once := InitOutcome(available, apiKey, constructorRaises, current);
            InitOutcome(available, apiKey, constructorRaises, once) == once
  {
  }

  /** The module-level state of deepl_translator.py: whether `import deepl`
      succeeded (fixed at import) and the global `deepl_translator` client. */
  class DeepLModule {
    const available: bool
    var client: Option<DeepLClient>

    /** Importing the module: the client starts out as None. */
    constructor (available: bool)
      ensures this.available == available && client == None
    {
      this.available := available;
      client := None;
    }

    /** `init_deepl_client`: does nothing without the library or without a
        key; otherwise the client becomes a new one built from the key, or None
        when building it raises. */
    method InitClient(apiKey: Option<string>, constructorRaises: bool)
      modifies this
      ensures !available || apiKey.None? || apiKey == Some("") ==> client == old(client)
      ensures available && apiKey.Some? && apiKey.value != "" && constructorRaises ==> client == None
      ensures available && apiKey.Some? && apiKey.value != "" && !constructorRaises ==>
                client == Some(DeepLClient(apiKey.value))
      ensures client == InitOutcome(available, apiKey, constructorRaises, old(client))
    {
      if !available {
        return;
      }
      if apiKey.Some? && apiKey.value != "" {
        if constructorRaises {
          client := None;
        } else {
          client := Some(DeepLClient(apiKey.value));
        }
      }
    }

    /** `translate_with_deepl` against this module's current state. */
    function Translate(text: string, source: string, target: string, service: DeepLService): (r: Result<string, HttpError>)
      reads this
      ensures client.None? ==> r.Failure? && r.error.status == 503
      ensures available && client.Some? ==>
        (r.Success? <==> service(client.value, DeepLRequest(text, SourceCode(source), TargetCode(target))).Returned?)
    {
      TranslateWithDeepL(available, client, text, source, target, service)
    }
  }
}
