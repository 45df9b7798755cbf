/** backend/translators/openai_translator.py: the OpenAI chat adapter. The
    global client, set once at import, is the flag `clientReady`; the chat
    service is a parameter. */
module OpenAITranslator {
  import opened Wrappers
  import opened Text
  import opened Backends

  const NotInitialisedDetail := "OpenAI 클라이언트가 초기화되지 않았습니다. OPENAI_API_KEY를 확인하세요."
  const InvalidKeyDetail := "OpenAI API 키가 유효하지 않습니다."
  const ModelNotFoundPrefix := "모델을 찾을 수 없습니다: "
  const FailurePrefix := "OpenAI 번역 실패: "

  /** `max_tokens` of a plain translation request. */
  const MaxTokens := 512

  /** The fixed text around the language names in the system message. */
  const SystemPromptHead := "You are a professional translator. Translate the given text from "
  const SystemPromptTail := ".\nProvide ONLY the translated text without any explanations or additional comments."
  const UserMessageHead := "Translate this text to "

  /** The system message: a professional translator from the source language
      to the target language, answering with the translation only. */
  function SystemPrompt(sourceName: string, targetName: string): string
  {
    SystemPromptHead + sourceName + " to " + targetName + SystemPromptTail
  }

  /** The user message. */
  function UserMessage(targetName: string, text: string): string
  {
    UserMessageHead + targetName + ":\n\n" + text
  }

  /** The system message names both languages; the user message names the
      target language and carries the text as its tail. */
  lemma PromptContents(sourceName: string, targetName: string, text: string)
    ensures Contains(SystemPrompt(sourceName, targetName), sourceName)
    ensures Contains(SystemPrompt(sourceName, targetName), targetName)
    ensures Contains(UserMessage(targetName, text), targetName)
    ensures |text| <= |UserMessage(targetName, text)|
    ensures UserMessage(targetName, text)[|UserMessage(targetName, text)| - |text|..] == text
  {
    var head := SystemPromptHead;
    var tail := SystemPromptTail;
    ContainsInfix(head, sourceName, " to " + targetName + tail);
    assert SystemPrompt(sourceName, targetName) == head + sourceName + (" to " + targetName + tail);
    ContainsInfix(head + sourceName + " to ", targetName, tail);
    ContainsInfix(UserMessageHead, targetName, ":\n\n" + text);
    assert UserMessage(targetName, text) == UserMessageHead + targetName + (":\n\n" + text);
  }

  /** The request `translate_with_openai` sends: the model id as given. */
  function TranslationRequest(model: string, sourceName: string, targetName: string, text: string): (req: ChatRequest)
    ensures req.model == model && req.maxTokens == 512
  {
    ChatRequest(model, SystemPrompt(sourceName, targetName), UserMessage(targetName, text), MaxTokens)
  }

  /** The authentication test: "api_key" or "authentication", in any letter case. */
  predicate MentionsAuthentication(message: string) {
    Contains(Lower(message), "api_key") || Contains(Lower(message), "authentication")
  }

  /** The error classifier of `translate_with_openai`, in its order: "not
      found" first (404, naming the model), then authentication (401), and
      every other error a 500 that carries the message. */
  function ClassifyError(model: string, message: string): (e: HttpError)
    ensures e.status == 404 <==> MentionsNotFound(message)
    ensures e.status == 401 <==> !MentionsNotFound(message) && MentionsAuthentication(message)
    ensures e.status == 500 <==> !MentionsNotFound(message) && !MentionsAuthentication(message)
    ensures e.status == 404 ==> Contains(e.detail, model)
    ensures e.status == 500 ==> Contains(e.detail, message)
  {
    if MentionsNotFound(message) then
      ContainsInfix(ModelNotFoundPrefix, model, "");
      assert ModelNotFoundPrefix + model + "" == ModelNotFoundPrefix + model;
      HttpError(404, ModelNotFoundPrefix + model)
    else if MentionsAuthentication(message) then
      HttpError(401, InvalidKeyDetail)
    else
      ContainsInfix(FailurePrefix, message, "");
      assert FailurePrefix + message + "" == FailurePrefix + message;
      HttpError(500, FailurePrefix + message)
  }

  /** "not found" is recognised in any letter case, wherever it stands in
      the message, whatever else the message says. */
  lemma NotFoundInAnyCase(model: string, pre: string, word: string, post: string)
    requires Lower(word) == "not found"
    ensures ClassifyError(model, pre + word + post).status == 404
  {
    Backends.NotFoundInAnyCase(pre, word, post);
  }

  /** "NOT_FOUND" is recognised as written, wherever it stands. */
  lemma NotFoundTokenAnywhere(model: string, pre: string, post: string)
    ensures ClassifyError(model, pre + "NOT_FOUND" + post).status == 404
  {
    Backends.NotFoundTokenAnywhere(pre, post);
  }

  /** The authentication words are recognised in any letter case, unless the
      message also says "not found". */
  lemma AuthenticationInAnyCase(model: string, pre: string, word: string, post: string)
    requires Lower(word) == "api_key" || Lower(word) == "authentication"
    requires !MentionsNotFound(pre + word + post)
    ensures ClassifyError(model, pre + word + post).status == 401
  {
    LowerAppend(pre + word, post);
    LowerAppend(pre, word);
    ContainsInfix(Lower(pre), Lower(word), Lower(post));
  }

  /** `translate_with_openai`. A missing client is a 500 before any prompt is
      built or the service is called; otherwise the service gets the
      translation request, its answer comes back stripped, and what it raises
      is classified. The language codes are accepted and not used. */
  function TranslateWithOpenAI(clientReady: bool, text: string, sourceLang: string, targetLang: string,
                               model: string, sourceName: string, targetName: string,
                               service: ChatService): (r: Result<string, HttpError>)
    ensures !clientReady ==> r == Failure(HttpError(500, NotInitialisedDetail))
    ensures clientReady ==>
      var outcome := service(TranslationRequest(model, sourceName, targetName, text));
      && (outcome.Returned? ==> r == Success(Strip(outcome.content)))
      && (outcome.Raised? ==> r == Failure(ClassifyError(model, outcome.message)))
  {
    if !clientReady then
      Failure(HttpError(500, NotInitialisedDetail))
    else
      match service(TranslationRequest(model, sourceName, targetName, text))
      case Returned(content) => Success(Strip(content))
      case Raised(message) => Failure(ClassifyError(model, message))
  }

  /** Without a client the service is never consulted. */
  lemma MissingClientNeverCallsService(text: string, sourceLang: string, targetLang: string, model: string,
                                       sourceName: string, targetName: string, s1: ChatService, s2: ChatService)
    ensures TranslateWithOpenAI(false, text, sourceLang, targetLang, model, sourceName, targetName, s1)
         == TranslateWithOpenAI(false, text, sourceLang, targetLang, model, sourceName, targetName, s2)
  {
  }

  /** Every failure is one of the four statuses, and a success never has
      whitespace at either end. */
  lemma TranslateWithOpenAIOutcomes(clientReady: bool, text: string, sourceLang: string, targetLang: string,
                                    model: string, sourceName: string, targetName: string, service: ChatService)
    ensures var r := TranslateWithOpenAI(clientReady, text, sourceLang, targetLang, model, sourceName, targetName, service);
      && (r.Failure? ==> r.error.status in {404, 401, 500})
      && (r.Success? ==> r.value == [] || (!IsSpace(r.value[0]) && !IsSpace(r.value[|r.value| - 1])))
  {
  }
}
