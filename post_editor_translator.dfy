/** backend/translators/post_editor_translator.py: the two-stage "post-editor".
    Stage 1 is a DeepL translation; stage 2 asks GPT-4o to refine it. A stage-1
    failure is an error; a stage-2 failure is absorbed and the stage-1
    translation is returned instead. */
module PostEditorTranslator {
  import opened Wrappers
  import opened Text
  import opened Backends
  import DeepLTranslator

  const Stage1FailurePrefix := "DeepL 초기 번역 실패: "
  const OpenAINotInitialisedDetail := "OpenAI 클라이언트가 초기화되지 않았습니다."

  /** The model and `max_tokens` of the post-editing request. */
  const PostEditModel := "gpt-4o"
  const PostEditMaxTokens := 1024

  /** The post-editor's role and output rules, section by section. */
  const PostEditRole := "You are an expert post-editor specializing in refining machine translations.\n\n"
  const PostEditGoals :=
    "<Goals>\n"
    + "1) Review and improve machine-translated text while preserving the original meaning\n"
    + "2) Ensure natural flow, cultural appropriateness, and linguistic accuracy\n"
    + "3) Maintain consistency with the source text\n"
    + "4) Produce polished, publication-ready translations\n"
    + "</Goals>\n\n"
  const PostEditOutputFormat :=
    "<Output Format>\n"
    + "Provide only the improved translation text without any explanations, notes, or additional commentary.\n"
    + "- Output must be in the target language only\n"
    + "- Do not include source text or comparison comments\n"
    + "- Focus on delivering the final, polished version\n"
    + "</Output Format>\n\n"
  const PostEditFormatExplanations :=
    "<Format Explanations>\n"
    + "Natural Flow: Ensure the translation reads smoothly and naturally in the target language\n"
    + "Cultural Appropriateness: Adapt expressions, idioms, and references to be culturally relevant\n"
    + "Linguistic Accuracy: Maintain grammatical correctness and proper terminology usage\n"
    + "Consistency: Preserve the tone and style of the original text\n"
    + "</Format Explanations>"
  const PostEditSystemPrompt := PostEditRole + PostEditGoals + PostEditOutputFormat + PostEditFormatExplanations

  /** The closing instruction of the stage-2 user message, up to the target language name. */
  const TaskReview := "\n\nTask: Carefully review the machine translation and improve it to make it more natural, accurate, "
  const TaskFixes := "and culturally appropriate. Fix any awkward phrasing, grammatical errors, or unnatural expressions. "
  const TaskOutput := "Output only the improved translation in "
  const TaskSentence := TaskReview + TaskFixes + TaskOutput

  /** The labels of the stage-2 user message. */
  const ReviewHeading := "Review and improve this machine translation.\n\nSource Language: "
  const TargetLabel := "\nTarget Language: "
  const OriginalLabel := "\n\nOriginal Text:\n"
  const MachineLabel := "\n\nMachine Translation (DeepL NMT):\n"

  /** The user message of stage 2: both language names, the original text
      and the stage-1 translation. */
  function PostEditUserPrompt(sourceName: string, targetName: string, text: string, initial: string): string
  {
    ReviewHeading + sourceName + TargetLabel + targetName + OriginalLabel + text
    + MachineLabel + initial + TaskSentence + targetName + "."
  }

  /** The stage-2 request: always GPT-4o with 1024 tokens, whatever model the caller chose. */
  function PostEditRequest(sourceName: string, targetName: string, text: string, initial: string): (req: ChatRequest)
    ensures req.model == "gpt-4o" && req.maxTokens == 1024
    ensures req.system == PostEditSystemPrompt
  {
    ChatRequest(PostEditModel, PostEditSystemPrompt, PostEditUserPrompt(sourceName, targetName, text, initial), PostEditMaxTokens)
  }

  /** The stage-2 user message carries the source name, the target name, the
      original text and the stage-1 translation. */
  lemma PostEditPromptContents(sourceName: string, targetName: string, text: string, initial: string)
    ensures Contains(PostEditUserPrompt(sourceName, targetName, text, initial), sourceName)
    ensures Contains(PostEditUserPrompt(sourceName, targetName, text, initial), targetName)
    ensures Contains(PostEditUserPrompt(sourceName, targetName, text, initial), text)
    ensures Contains(PostEditUserPrompt(sourceName, targetName, text, initial), initial)
  {
    var s1 := ReviewHeading + sourceName;
    var s2 := s1 + TargetLabel;
    var s3 := s2 + targetName;
    var s4 := s3 + OriginalLabel;
    var s5 := s4 + text;
    var s6 := s5 + MachineLabel;
    var s7 := s6 + initial;
    var s8 := s7 + TaskSentence;
    var s9 := s8 + targetName;
    var p := s9 + ".";
    assert p == PostEditUserPrompt(sourceName, targetName, text, initial);
    ContainsSelf(sourceName);
    ContainsPrepend(ReviewHeading, sourceName, sourceName);
    ContainsSelf(targetName);
    ContainsPrepend(s2, targetName, targetName);
    ContainsSelf(text);
    ContainsPrepend(s4, text, text);
    ContainsSelf(initial);
    ContainsPrepend(s6, initial, initial);
    forall x | x in {sourceName, targetName, text, initial}
      ensures Contains(p, x)
    {
      if x == sourceName {
        ContainsAppend(s1, TargetLabel, x);
        ContainsAppend(s2, targetName, x);
      }
      if x == sourceName || x == targetName {
        ContainsAppend(s3, OriginalLabel, x);
        ContainsAppend(s4, text, x);
      }
      if x == sourceName || x == targetName || x == text {
        ContainsAppend(s5, MachineLabel, x);
        ContainsAppend(s6, initial, x);
      }
      ContainsAppend(s7, TaskSentence, x);
      ContainsAppend(s8, targetName, x);
      ContainsAppend(s9, ".", x);
    }
  }

  /** `translate_with_post_editor` after stage 1 has run: `stage1` is what
      the stage-1 call returned or raised for the caller's text, source and
      target. An `HTTPException` from stage 1 is re-raised as it is, any other
      exception becomes a 500; a missing OpenAI client after a good stage 1 is
      a 500; otherwise stage 2's answer comes back stripped, and if stage 2
      raises, the stage-1 translation comes back instead. */
  function PostEdit(stage1: Result<string, Exception>, openaiReady: bool, text: string,
                    sourceName: string, targetName: string, stage2: ChatService): (r: Result<string, HttpError>)
    ensures stage1.Failure? && stage1.error.HttpException? ==> r == Failure(stage1.error.error)
    ensures stage1.Failure? && stage1.error.OtherException? ==>
              r == Failure(HttpError(500, Stage1FailurePrefix + stage1.error.message))
    ensures stage1.Success? && !openaiReady ==> r == Failure(HttpError(500, OpenAINotInitialisedDetail))
    ensures stage1.Success? && openaiReady ==>
      var outcome := stage2(PostEditRequest(sourceName, targetName, text, stage1.value));
      && (outcome.Returned? ==> r == Success(Strip(outcome.content)))
      && (outcome.Raised? ==> r == Success(stage1.value))
  {
    match stage1
    case Failure(HttpException(e)) => Failure(e)
    case Failure(OtherException(message)) => Failure(HttpError(500, Stage1FailurePrefix + message))
    case Success(initial) =>
      if !openaiReady then
        Failure(HttpError(500, OpenAINotInitialisedDetail))
      else
        match stage2(PostEditRequest(sourceName, targetName, text, initial))
        case Returned(content) => Success(Strip(content))
        case Raised(_) => Success(initial)
  }

  /** After a good stage 1 with a client, no error ever reaches the caller:
      the result is the refined text or, failing that, exactly stage 1's. */
  lemma NoErrorAfterStage1(initial: string, text: string, sourceName: string, targetName: string, stage2: ChatService)
    ensures var r := PostEdit(Success(initial), true, text, sourceName, targetName, stage2);
      && r.Success?
      && (r.value == initial || stage2(PostEditRequest(sourceName, targetName, text, initial)).Returned?)
  {
  }

  /** When stage 1 fails, stage 2 is never attempted and the OpenAI client is
      never looked at: the result does not depend on either. */
  lemma Stage1FailureSkipsStage2(stage1: Result<string, Exception>, text: string, sourceName: string,
                                 targetName: string, ready1: bool, ready2: bool, s1: ChatService, s2: ChatService)
    requires stage1.Failure?
    ensures PostEdit(stage1, ready1, text, sourceName, targetName, s1)
         == PostEdit(stage1, ready2, text, sourceName, targetName, s2)
    ensures PostEdit(stage1, ready1, text, sourceName, targetName, s1).Failure?
  {
  }

  /** How a stage-1 result looks to the `try` around it: an HTTP error is an `HTTPException`. */
  function AsRaised(r: Result<string, HttpError>): (lifted: Result<string, Exception>)
    ensures r.Success? <==> lifted.Success?
    ensures r.Failure? ==> lifted.error == HttpException(r.error)
  {
    match r
    case Success(t) => Success(t)
    case Failure(e) => Failure(HttpException(e))
  }

  /** `translate_with_post_editor` with the real stage 1: DeepL, called with
      the caller's text, source and target unchanged, against the DeepL
      module's state. */
  function TranslateWithPostEditor(deeplAvailable: bool, deeplClient: Option<DeepLTranslator.DeepLClient>,
                                   openaiReady: bool, text: string, source: string, target: string,
                                   sourceName: string, targetName: string,
                                   deepl: DeepLTranslator.DeepLService, chat: ChatService): (r: Result<string, HttpError>)
    ensures var first := DeepLTranslator.TranslateWithDeepL(deeplAvailable, deeplClient, text, source, target, deepl);
      && (first.Failure? ==> r == Failure(first.error))
      && (first.Success? ==> r == PostEdit(Success(first.value), openaiReady, text, sourceName, targetName, chat))
      && (first.Success? && !openaiReady ==> r == Failure(HttpError(500, OpenAINotInitialisedDetail)))
      && (first.Success? && openaiReady ==> r.Success?)
  {
    var first := DeepLTranslator.TranslateWithDeepL(deeplAvailable, deeplClient, text, source, target, deepl);
    PostEdit(AsRaised(first), openaiReady, text, sourceName, targetName, chat)
  }

  /** DeepL only ever raises `HTTPException`s, so in the model, where the
      logging `print` calls inside the stage-1 `try` are left out, the
      "DeepL 초기 번역 실패" wrapping never happens: every stage-1 error
      surfaces with DeepL's own status and detail (503 or 500). */
  lemma DeepLErrorsSurfaceUnchanged(deeplAvailable: bool, deeplClient: Option<DeepLTranslator.DeepLClient>,
                                    openaiReady: bool, text: string, source: string, target: string,
                                    sourceName: string, targetName: string,
                                    deepl: DeepLTranslator.DeepLService, chat: ChatService)
    ensures var r := TranslateWithPostEditor(deeplAvailable, deeplClient, openaiReady, text, source, target,
                                             sourceName, targetName, deepl, chat);
      r.Failure? ==> r.error.status in {503, 500}
    ensures !deeplAvailable ==>
      TranslateWithPostEditor(deeplAvailable, deeplClient, openaiReady, text, source, target, sourceName, targetName, deepl, chat)
      == Failure(HttpError(503, DeepLTranslator.NotInstalledDetail))
  {
  }

  /** DeepL translated and the stage-2 request for its text raises: the caller
      gets DeepL's text exactly. */
  lemma Stage2FailureReturnsDeepLText(c: DeepLTranslator.DeepLClient, text: string, source: string, target: string,
                                      sourceName: string, targetName: string,
                                      deepl: DeepLTranslator.DeepLService, chat: ChatService)
    requires deepl(c, DeepLTranslator.DeepLRequest(text, DeepLTranslator.SourceCode(source),
                                                   DeepLTranslator.TargetCode(target))).Returned?
    requires chat(PostEditRequest(sourceName, targetName, text,
                                  deepl(c, DeepLTranslator.DeepLRequest(text, DeepLTranslator.SourceCode(source),
                                                                        DeepLTranslator.TargetCode(target))).content)).Raised?
    ensures TranslateWithPostEditor(true, Some(c), true, text, source, target, sourceName, targetName, deepl, chat)
         == Success(deepl(c, DeepLTranslator.DeepLRequest(text, DeepLTranslator.SourceCode(source),
                                                          DeepLTranslator.TargetCode(target))).content)
  {
  }
}
