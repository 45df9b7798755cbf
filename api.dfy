/** backend/api.py: the two request handlers that carry logic, `get_models`
    and `translate`. The Lemonade client, created once at import, is the flag
    `lemonadeReady`; the Lemonade chat service is a parameter. */
module Api {
  import opened Wrappers
  import opened Text
  import opened Backends
  import opened ModelsConfig
  import OpenAITranslator

  /** The body of a translate request (the framework has already checked that `text` is non-empty). */
  datatype TranslateRequest = TranslateRequest(text: string, sourceLang: string, targetLang: string, model: string)

  /** The body of a successful translate response. */
  datatype TranslateResponse = TranslateResponse(translatedText: string, model: string, sourceLang: string, targetLang: string)

  /** One model in the `/api/models` response. */
  datatype ModelInfo = ModelInfo(id: string, name: string, description: string)

  const LemonadeNotInitialisedDetail := "Lemonade Server 클라이언트가 초기화되지 않았습니다. 서버를 확인하세요."
  const UnreachableDetail := "Lemonade Server에 연결할 수 없습니다. 서버가 실행 중인지 확인하세요 (http://localhost:8000)"
  const ModelNotFoundPrefix := "모델을 찾을 수 없습니다: "
  const ModelNotFoundSuffix := ". Lemonade Server에서 모델을 다운로드했는지 확인하세요."
  const FailurePrefix := "번역 중 오류 발생: "

  /** `get_models`: one ModelInfo per entry of `get_model_list()`, in the same order. */
  function GetModels(): (r: seq<ModelInfo>)
    ensures |r| == |GetModelList()|
    ensures forall i :: 0 <= i < |r| ==>
      r[i] == ModelInfo(GetModelList()[i].id, GetModelList()[i].name, GetModelList()[i].description)
  {
    var listing := GetModelList();
    seq(|listing|, i requires 0 <= i < |listing| => ModelInfo(listing[i].id, listing[i].name, listing[i].description))
  }

  /** The endpoint lists exactly the accepted model ids, in table order, with
      their display names and descriptions. */
  lemma GetModelsListsTable()
    ensures |GetModels()| == |AvailableModels|
    ensures forall i :: 0 <= i < |GetModels()| ==>
      && GetModels()[i].id == AvailableModels[i].0
      && GetModels()[i].name == AvailableModels[i].1.displayName
      && GetModels()[i].description == AvailableModels[i].1.description.GetOr("")
    ensures forall i :: 0 <= i < |GetModels()| ==> GetFullModelName(GetModels()[i].id).Success?
  {
  }

  /** The connection test: "Connection" as written, or "connect" in any letter case. */
  predicate MentionsConnection(message: string) {
    Contains(message, "Connection") || Contains(Lower(message), "connect")
  }

  /** The case-sensitive half of the connection test is subsumed by the other:
      the test is just "connect" in any letter case. */
  lemma ConnectionTestIsCaseInsensitive(message: string)
    ensures MentionsConnection(message) <==> Contains(Lower(message), "connect")
  {
    if Contains(message, "Connection") {
      ConnectionLowered(message);
    }
  }

  /** Wherever "Connection" stands, the lower-cased message has "connect". */
  lemma ConnectionLowered(message: string)
    requires Contains(message, "Connection")
    ensures Contains(Lower(message), "connect")
  {
    var k := ContainsPosition(message, "Connection");
    var l := Lower(message);
    assert message[k..k + 10] == "Connection";
    assert l[k..k + 7] == "connect" by {
      forall j | 0 <= j < 7
        ensures l[k + j] == "connect"[j]
      {
        assert message[k + j] == "Connection"[j];
      }
    }
    ContainsAt(l, "connect", k);
  }

  /** The error classifier of `translate`, in its order: "not found" first
      (404, naming the model), then connection trouble (503), and every other
      error a 500 that carries the message. */
  function ClassifyLemonadeError(modelName: string, message: string): (e: HttpError)
    ensures e.status == 404 <==> MentionsNotFound(message)
    ensures e.status == 503 <==> !MentionsNotFound(message) && MentionsConnection(message)
    ensures e.status == 500 <==> !MentionsNotFound(message) && !MentionsConnection(message)
    ensures e.status == 404 ==> Contains(e.detail, modelName)
    ensures e.status == 500 ==> Contains(e.detail, message)
  {
    if MentionsNotFound(message) then
      ContainsInfix(ModelNotFoundPrefix, modelName, ModelNotFoundSuffix);
      HttpError(404, ModelNotFoundPrefix + modelName + ModelNotFoundSuffix)
    else if MentionsConnection(message) then
      HttpError(503, UnreachableDetail)
    else
      ContainsInfix(FailurePrefix, message, "");
      assert FailurePrefix + message + "" == FailurePrefix + message;
      HttpError(500, FailurePrefix + message)
  }

  /** A "not found" that also mentions the connection is still a 404. */
  lemma NotFoundBeforeConnection(modelName: string, pre: string, post: string)
    ensures ClassifyLemonadeError(modelName, pre + "NOT_FOUND" + post).status == 404
  {
    Backends.NotFoundTokenAnywhere(pre, post);
  }

  /** "connect" is recognised in any letter case, wherever it stands. */
  lemma ConnectInAnyCase(modelName: string, pre: string, word: string, post: string)
    requires Lower(word) == "connect"
    requires !MentionsNotFound(pre + word + post)
    ensures ClassifyLemonadeError(modelName, pre + word + post).status == 503
  {
    LowerAppend(pre + word, post);
    LowerAppend(pre, word);
    ContainsInfix(Lower(pre), "connect", Lower(post));
  }

  /** `translate`. The Lemonade client check comes first (500), then the model
      check (400 with the `ValueError` text); neither calls the service. Then
      both languages are normalised to codes, their English names fill the same
      prompts `translate_with_openai` builds, and the service is asked with the
      request's own model id. On success the response carries the stripped
      text, the request's model and the normalised codes; a raised error is
      classified. */
  function Translate(lemonadeReady: bool, request: TranslateRequest, service: ChatService): (r: Result<TranslateResponse, HttpError>)
    ensures !lemonadeReady ==> r == Failure(HttpError(500, LemonadeNotInitialisedDetail))
    ensures lemonadeReady && request.model !in ModelIds() ==>
              r == Failure(HttpError(400, GetFullModelName(request.model).error))
    ensures lemonadeReady && request.model in ModelIds() ==>
      var source := GetLanguageCode(request.sourceLang);
      var target := GetLanguageCode(request.targetLang);
      var outcome := service(OpenAITranslator.TranslationRequest(request.model, GetLanguageName(source),
                                                                 GetLanguageName(target), request.text));
      && (outcome.Returned? ==> r == Success(TranslateResponse(Strip(outcome.content), request.model, source, target)))
      && (outcome.Raised? ==> r == Failure(ClassifyLemonadeError(request.model, outcome.message)))
  {
    if !lemonadeReady then
      Failure(HttpError(500, LemonadeNotInitialisedDetail))
    else
      match GetFullModelName(request.model)
      case Failure(message) => Failure(HttpError(400, message))
      case Success(modelName) =>
        var source := GetLanguageCode(request.sourceLang);
        var target := GetLanguageCode(request.targetLang);
        var sourceName := GetLanguageName(source);
        var targetName := GetLanguageName(target);
        match service(OpenAITranslator.TranslationRequest(modelName, sourceName, targetName, request.text))
        case Returned(content) =>
          Success(TranslateResponse(Strip(content), request.model, source, target))
        case Raised(message) =>
          Failure(ClassifyLemonadeError(modelName, message))
  }

  /** An unknown model never reaches the service, and the 400 names every
      accepted id. */
  lemma InvalidModelNeverCallsService(request: TranslateRequest, s1: ChatService, s2: ChatService, known: string)
    requires request.model !in ModelIds()
    requires known in ModelIds()
    ensures Translate(true, request, s1) == Translate(true, request, s2)
    ensures Translate(true, request, s1).Failure?
    ensures Translate(true, request, s1).error.status == 400
    ensures Contains(Translate(true, request, s1).error.detail, known)
  {
    InvalidModelMessageListsAll(request.model, known);
  }

  /** A successful response echoes the request's model and carries language
      codes already in normal form, with no whitespace around the text. */
  lemma ResponseIsNormalised(lemonadeReady: bool, request: TranslateRequest, service: ChatService)
    ensures var r := Translate(lemonadeReady, request, service);
      r.Success? ==>
        && r.value.model == request.model
        && r.value.model in ModelIds()
        && GetLanguageCode(r.value.sourceLang) == r.value.sourceLang
        && GetLanguageCode(r.value.targetLang) == r.value.targetLang
        && (r.value.translatedText == []
            || (!IsSpace(r.value.translatedText[0]) && !IsSpace(r.value.translatedText[|r.value.translatedText| - 1])))
  {
    var r := Translate(lemonadeReady, request, service);
    if r.Success? {
      assert lemonadeReady && request.model in ModelIds();
      var source := GetLanguageCode(request.sourceLang);
      var target := GetLanguageCode(request.targetLang);
      var outcome := service(OpenAITranslator.TranslationRequest(request.model, GetLanguageName(source),
                                                                 GetLanguageName(target), request.text));
      assert outcome.Returned?;
      assert r.value == TranslateResponse(Strip(outcome.content), request.model, source, target);
      LanguageCodeIdempotent(request.sourceLang);
      LanguageCodeIdempotent(request.targetLang);
    }
  }

  /** Every failure of `translate` has one of five statuses. */
  lemma TranslateStatuses(lemonadeReady: bool, request: TranslateRequest, service: ChatService)
    ensures var r := Translate(lemonadeReady, request, service);
      r.Failure? ==> r.error.status in {500, 400, 404, 503}
  {
  }

  /** A registered model and an answering service give a response with the
      stripped answer, the request's model and the normalised codes. */
  lemma TranslateAnswered(request: TranslateRequest, service: ChatService, answer: string)
    requires request.model in ModelIds()
    requires forall req: ChatRequest :: service(req) == Returned(answer)
    ensures Translate(true, request, service)
         == Success(TranslateResponse(Strip(answer), request.model,
                                      GetLanguageCode(request.sourceLang), GetLanguageCode(request.targetLang)))
  {
    var req := OpenAITranslator.TranslationRequest(request.model, GetLanguageName(GetLanguageCode(request.sourceLang)),
                                                   GetLanguageName(GetLanguageCode(request.targetLang)), request.text);
    assert service(req) == Returned(answer);
  }

  /** "gpt-4o-mini" with an answering service, before the answer and the
      codes are simplified. */
  lemma HelloWorldAnswered(service: ChatService)
    requires forall req: ChatRequest :: service(req) == Returned("안녕, 세상!")
    ensures Translate(true, TranslateRequest("Hello, world!", "en", "ko", "gpt-4o-mini"), service)
         == Success(TranslateResponse(Strip("안녕, 세상!"), "gpt-4o-mini", GetLanguageCode("en"), GetLanguageCode("ko")))
  {
    AvailableModelsWellFormed();
    TranslateAnswered(TranslateRequest("Hello, world!", "en", "ko", "gpt-4o-mini"), service, "안녕, 세상!");
  }

  /** The unpadded answer is kept as it is, and "en" and "ko" are already codes. */
  lemma HelloWorldNormalised()
    ensures TranslateResponse(Strip("안녕, 세상!"), "gpt-4o-mini", GetLanguageCode("en"), GetLanguageCode("ko"))
         == TranslateResponse("안녕, 세상!", "gpt-4o-mini", "en", "ko")
  {
    StripUnpadded("안녕, 세상!");
    KoreanAndEnglishCodesFixed();
  }

  /** English to Korean with a known model and a service that answers
      "안녕, 세상!": the response carries that text, the model and both codes. */
  lemma TranslateHelloWorld(service: ChatService)
    requires forall req: ChatRequest :: service(req) == Returned("안녕, 세상!")
    ensures Translate(true, TranslateRequest("Hello, world!", "en", "ko", "gpt-4o-mini"), service)
         == Success(TranslateResponse("안녕, 세상!", "gpt-4o-mini", "en", "ko"))
  {
    HelloWorldAnswered(service);
    HelloWorldNormalised();
  }

  /** "gpt-4o" with full language names and an answering service, before the
      answer and the names are simplified. */
  lemma FullNamesAnswered(service: ChatService)
    requires forall req: ChatRequest :: service(req) == Returned("안녕, 세상!")
    ensures Translate(true, TranslateRequest("Hello, world!", "English", "한국어", "gpt-4o"), service)
         == Success(TranslateResponse(Strip("안녕, 세상!"), "gpt-4o", GetLanguageCode("English"), GetLanguageCode("한국어")))
  {
    AvailableModelsWellFormed();
    TranslateAnswered(TranslateRequest("Hello, world!", "English", "한국어", "gpt-4o"), service, "안녕, 세상!");
  }

  /** The unpadded answer is kept as it is, and the full names become "en" and "ko". */
  lemma FullNamesNormalised()
    ensures TranslateResponse(Strip("안녕, 세상!"), "gpt-4o", GetLanguageCode("English"), GetLanguageCode("한국어"))
         == TranslateResponse("안녕, 세상!", "gpt-4o", "en", "ko")
  {
    StripUnpadded("안녕, 세상!");
    LanguageCodeOfKnownNames();
  }

  /** Full names are accepted too: "English" and "한국어" become "en" and "ko". */
  lemma TranslateAcceptsFullNames(service: ChatService)
    requires forall req: ChatRequest :: service(req) == Returned("안녕, 세상!")
    ensures Translate(true, TranslateRequest("Hello, world!", "English", "한국어", "gpt-4o"), service)
         == Success(TranslateResponse("안녕, 세상!", "gpt-4o", "en", "ko"))
  {
    FullNamesAnswered(service);
    FullNamesNormalised();
  }
}
