# Translation gateway: registry, adapters and request handler in Dafny

This project models the decision logic of a small translation gateway:

- The model registry: a fixed, insertion-ordered table of three OpenAI model ids. The registry validates an id by returning it unchanged or raising `ValueError`, and it can list all its entries.
- Two total language lookups: a language name to its code, and a code to its English name.
- The DeepL adapter. It upper-cases the codes, turns a bare `EN`/`PT` target into `EN-US`/`PT-BR`, and sends a source of `"auto"` as no source. It checks the library, then the client, then calls DeepL. Its global client is set by an initialiser.
- The OpenAI adapter: a fixed prompt pair and an error classifier (404, then 401, then 500).
- The two-stage post-editor: DeepL first, then GPT-4o refines the result. A stage-1 error is raised. A stage-2 error is absorbed, and the DeepL text is returned instead.
- The `translate` handler. It checks the client, then the model. It normalises both languages, asks the chat service, and then either answers with the normalised codes or classifies the error (404, then 503, then 500). The `get_models` handler is modelled too.

Each source file is one module (`ModelsConfig`, `DeepLTranslator`, `OpenAITranslator`, `PostEditorTranslator`, `Api`). Three modules are shared by them:

- `Text`: Python's `upper`, `lower`, `strip`, `in` and `join`.
- `Backends`: HTTP errors, exceptions, chat requests and service outcomes.
- `Wrappers`: `Option` and `Result`.

The remote services are parameters. A service is a function from the request the gateway builds to `Returned(text)` or `Raised(message)`. "The service is never called" is stated as "the result is the same whatever the service does". The DeepL module's global client is a field of the class `DeepLModule`, and `InitClient` updates it. The OpenAI and Lemonade clients are created once at import, so each is a boolean input.

Some consequences of the code that the model makes explicit:

- `LANGUAGE_MAPPING`'s keys are each language's own name ("한국어"), while `LANGUAGE_NAMES`'s values are English names ("Korean"). So name → code → name returns the input only for "English" (`ModelsConfig.NameRoundTripOnlyForEnglish`).
- `translate` always asks the Lemonade chat service with the request's model id. No code picks a different backend by model id, and the registry holds only three GPT models.
- The post-editor re-raises a stage-1 `HTTPException` unchanged, but wraps any other exception as a 500 prefixed "DeepL 초기 번역 실패: ". Both branches are modelled (`PostEditorTranslator.PostEdit`). `translate_with_deepl` only raises `HTTPException`, so in the model the second branch cannot occur with DeepL as stage 1 (`PostEditorTranslator.DeepLErrorsSurfaceUnchanged`). In the source it can: the stage-1 `try` also holds two `print` calls, which the model leaves out, and a failing `print` would take that branch.
- The DeepL client exists only after `init_deepl_client` has run with the library present and a non-empty key; until then every DeepL call is a 503 (`DeepLTranslator.DeepLModule.InitClient`, `DeepLTranslator.DeepLModule.Translate`).

## Model

| member | source | states |
|---|---|---|
| `Text.Upper` | backend/translators/deepl_translator.py:86-87 | `upper()` keeps the length, upper-cases each character, and leaves no lower-case ASCII letter |
| `Text.Lower` | backend/translators/openai_translator.py:94-99 | `lower()` keeps the length, lower-cases each character, and leaves no upper-case ASCII letter |
| `Text.Contains` | backend/api.py:191-196 | `sub in s`: an occurrence is never longer than the string, and a prefix is an occurrence |
| `Text.ContainsAt` | backend/api.py:191-196 | `sub in s` holds whenever `sub` sits at some position of `s` |
| `Text.ContainsPosition` | backend/api.py:191-196 | conversely, when `sub in s` holds there is a position where `sub` sits |
| `Text.LeadingSpaces` | backend/translators/openai_translator.py:87 | the number of leading whitespace characters: all of them are whitespace and the next character, if any, is not |
| `Text.TrailingSpaces` | backend/translators/openai_translator.py:87 | the number of trailing whitespace characters: all of them are whitespace and the character before them, if any, is not |
| `Text.Strip` | backend/translators/openai_translator.py:87 | `strip()` keeps the piece of the input that starts right after the leading whitespace; it has no whitespace at either end, and everything cut off before and after it is whitespace (whitespace as `str.isspace()` defines it) |
| `Text.StripEmptyOnlyForBlank` | backend/translators/openai_translator.py:87 | `strip()` gives "" exactly when the input is all whitespace |
| `Text.StripIdempotent` | backend/translators/openai_translator.py:87 | stripping a stripped string changes nothing |
| `Text.StripIsSlice` | backend/translators/openai_translator.py:87 | what `strip()` keeps occurs in its input as a contiguous piece |
| `Text.JoinContainsEach` | backend/models_config.py:90 | every part of `", ".join(parts)` occurs in the joined string |
| `Text.Join` | backend/models_config.py:90 | `sep.join(parts)`: "" for no parts; otherwise the parts' total length plus one separator between neighbours, starting with the first part |
| `Text.JoinOffsetStep` | backend/models_config.py:90 | in `sep.join(parts)` the first part starts at 0, and each next part starts after the previous part and one separator |
| `Text.JoinPartAt` | backend/models_config.py:90 | the i-th part of `sep.join(parts)` sits, unchanged, at its offset |
| `Text.JoinSeparatorAfter` | backend/models_config.py:90 | exactly one separator stands between each part and the next |
| `Text.JoinThree` | backend/models_config.py:90 | three parts join as first, separator, second, separator, third |
| `Backends.NotFoundInAnyCase` | backend/translators/openai_translator.py:94 | the shared not-found test (also backend/api.py:191) fires for "not found" in any letter case, anywhere in the message |
| `Backends.NotFoundTokenAnywhere` | backend/api.py:191 | the shared not-found test fires for NOT_FOUND anywhere in the message |
| `ModelsConfig.AvailableModelsWellFormed` | backend/models_config.py:10-23 | the registry's keys are distinct and are, in order, gpt-3.5-turbo, gpt-4o-mini, gpt-4o |
| `ModelsConfig.ListModels` | backend/models_config.py:57-64 | for any table: one listing per entry, in table order; id = key, name = display name, description = the entry's or "" when it has none |
| `ModelsConfig.GetModelList` | backend/models_config.py:48-64 | as many listings as registry entries, the i-th carrying the i-th accepted id |
| `ModelsConfig.ModelListMatchesTable` | backend/models_config.py:57-64 | the listing is exactly the three entries, in insertion order, with their names and descriptions |
| `ModelsConfig.GetFullModelName` | backend/models_config.py:89-95 | succeeds if and only if the id is registered; on success the id comes back unchanged; the error names the id |
| `ModelsConfig.InvalidModelMessageListsAll` | backend/models_config.py:89-93 | the `ValueError` for an unknown id names every registered id |
| `ModelsConfig.JoinedModelIds` | backend/models_config.py:90 | the registry's ids join as "gpt-3.5-turbo", ", ", "gpt-4o-mini", ", ", "gpt-4o" |
| `ModelsConfig.InvalidModelMessageText` | backend/models_config.py:90-93 | the message is exactly "Invalid model_id: X. Available models: gpt-3.5-turbo, gpt-4o-mini, gpt-4o" |
| `ModelsConfig.GetLanguageCode` | backend/models_config.py:98-112 | never fails; the result is the input or a code with an English name; unknown input passes through unchanged |
| `ModelsConfig.GetLanguageName` | backend/models_config.py:115-129 | never fails; the result is the input or one of the English names; an unknown code passes through unchanged |
| `ModelsConfig.CodesAreNotNames` | backend/models_config.py:26-34 | no code in LANGUAGE_MAPPING is also one of its name keys |
| `ModelsConfig.LanguageCodeOfKnownNames` | backend/models_config.py:26-34 | the seven names map to ko, en, ja, zh, es, fr, de |
| `ModelsConfig.LanguageCodeIdempotent` | backend/models_config.py:112 | normalising twice equals normalising once, for every input |
| `ModelsConfig.LanguageCodeOfCode` | backend/models_config.py:112 | a known code is left unchanged |
| `ModelsConfig.KoreanAndEnglishCodesFixed` | backend/models_config.py:112 | "ko" and "en" normalise to themselves |
| `ModelsConfig.LanguageNameOfKnownCodes` | backend/models_config.py:37-45 | the seven codes map to Korean, English, Japanese, Chinese, Spanish, French, German |
| `ModelsConfig.NameOfCodeOfKnownName` | backend/models_config.py:26-45 | every code LANGUAGE_MAPPING produces is a key of LANGUAGE_NAMES, so naming it is a table hit |
| `ModelsConfig.NameRoundTripOnlyForEnglish` | backend/models_config.py:26-45 | for a known name, name -> code -> name gives the name back if and only if it is "English" |
| `DeepLTranslator.TargetCode` | backend/translators/deepl_translator.py:87-93 | the target starts with the upper-cased input, has no lower-case letter, and is never a bare EN or PT |
| `DeepLTranslator.TargetCodeRules` | backend/translators/deepl_translator.py:87-93 | upper(x) = EN gives EN-US, upper(x) = PT gives PT-BR, any other x gives upper(x) |
| `DeepLTranslator.TargetCodeExamples` | backend/translators/deepl_translator.py:87-93 | "en" and "EN" give EN-US, "pt" and "PT" give PT-BR, "ko" gives KO, "en-gb" gives EN-GB |
| `DeepLTranslator.TargetCodeIdempotent` | backend/translators/deepl_translator.py:87-93 | rewriting an already rewritten target changes nothing |
| `DeepLTranslator.SourceCode` | backend/translators/deepl_translator.py:86 | no source if and only if the input is exactly "auto"; otherwise the upper-cased input |
| `DeepLTranslator.SourceCodeExamples` | backend/translators/deepl_translator.py:86 | "en" is sent as EN, not regionalised; "AUTO" and "Auto" are not the auto-detect sentinel |
| `DeepLTranslator.TranslateWithDeepL` | backend/translators/deepl_translator.py:72-107 | library missing gives 503, checked first; client missing gives 503; otherwise the service gets the rewritten codes, its text comes back unchanged, and a raised error becomes 500 "DeepL 번역 실패: " + message |
| `DeepLTranslator.UnconfiguredNeverCallsService` | backend/translators/deepl_translator.py:72-82 | without the library or the client the result does not depend on the service, and it is a failure |
| `DeepLTranslator.EnglishTargetSentAsEnUs` | backend/translators/deepl_translator.py:87-101 | a target of "en" reaches the service as EN-US |
| `DeepLTranslator.InitOutcome` | backend/translators/deepl_translator.py:28-42 | a new client only comes from the given non-empty key with the library present; an existing client is only dropped when construction raises; without the library or a key nothing changes; with the library and a non-empty key the client is the new one built from that key, or None when construction raises |
| `DeepLTranslator.InitOutcomeIdempotent` | backend/translators/deepl_translator.py:28-42 | initialising twice under the same conditions leaves the same client as once |
| `DeepLTranslator.DeepLModule.constructor` | backend/translators/deepl_translator.py:11-21 | after import the client is None and the library flag is fixed |
| `DeepLTranslator.DeepLModule.InitClient` | backend/translators/deepl_translator.py:24-42 | the global client is untouched without the library or the key, becomes a new client from the key, or None when construction raises |
| `DeepLTranslator.DeepLModule.Translate` | backend/translators/deepl_translator.py:72-107 | against the module's state: no client means a 503; with the library and a client, success exactly when the service returns |
| `OpenAITranslator.PromptContents` | backend/translators/openai_translator.py:71-74 | the system prompt names both languages; the user message names the target and ends with the text |
| `OpenAITranslator.TranslationRequest` | backend/translators/openai_translator.py:77-85 | the model id is forwarded unchanged with max_tokens 512 |
| `OpenAITranslator.ClassifyError` | backend/translators/openai_translator.py:90-108 | 404 if and only if the message says NOT_FOUND or, in any case, "not found", naming the model; else 401 if and only if it says "api_key" or "authentication" in any case; else 500 carrying the message |
| `OpenAITranslator.NotFoundInAnyCase` | backend/translators/openai_translator.py:94-98 | "not found" in any letter case, anywhere in a message, gives 404 |
| `OpenAITranslator.NotFoundTokenAnywhere` | backend/translators/openai_translator.py:94-98 | NOT_FOUND anywhere in a message gives 404 |
| `OpenAITranslator.AuthenticationInAnyCase` | backend/translators/openai_translator.py:99-103 | "api_key"/"authentication" in any case gives 401 unless the message also says "not found" |
| `OpenAITranslator.TranslateWithOpenAI` | backend/translators/openai_translator.py:64-108 | no client gives 500 before any request; otherwise the service gets the fixed prompts, success is the stripped answer, and errors are classified |
| `OpenAITranslator.MissingClientNeverCallsService` | backend/translators/openai_translator.py:64-68 | without a client the result does not depend on the service |
| `OpenAITranslator.TranslateWithOpenAIOutcomes` | backend/translators/openai_translator.py:64-108 | every failure is 404, 401 or 500; a success has no whitespace at either end |
| `PostEditorTranslator.PostEditRequest` | backend/translators/post_editor_translator.py:110-118 | stage 2 always asks gpt-4o with max_tokens 1024 and the post-editor system prompt |
| `PostEditorTranslator.PostEditPromptContents` | backend/translators/post_editor_translator.py:95-106 | the stage-2 user prompt contains the source name, the target name, the original text and the stage-1 translation |
| `PostEditorTranslator.PostEdit` | backend/translators/post_editor_translator.py:53-130 | a stage-1 HTTPException is re-raised unchanged; another stage-1 exception becomes 500 "DeepL 초기 번역 실패: " + message; no OpenAI client gives 500; stage-2 success gives the stripped output; a stage-2 error gives the stage-1 text |
| `PostEditorTranslator.NoErrorAfterStage1` | backend/translators/post_editor_translator.py:110-130 | after a good stage 1 with a client the call always succeeds, with the refined text or exactly the stage-1 text |
| `PostEditorTranslator.Stage1FailureSkipsStage2` | backend/translators/post_editor_translator.py:53-61 | after a stage-1 failure the result depends on neither the OpenAI client nor stage 2, and it is a failure |
| `PostEditorTranslator.AsRaised` | backend/translators/post_editor_translator.py:57-59 | a DeepL error is caught as an HTTPException carrying the same error |
| `PostEditorTranslator.TranslateWithPostEditor` | backend/translators/post_editor_translator.py:53-68 | stage 1 is DeepL on the caller's text, source and target; a DeepL error is the result unchanged; a DeepL success continues as stage 2 on DeepL's text; without an OpenAI client that is the 500, with one it always ends in success |
| `PostEditorTranslator.DeepLErrorsSurfaceUnchanged` | backend/translators/post_editor_translator.py:53-61 | with DeepL as stage 1 and no logging, every failure is 503 or 500, and with the library missing it is DeepL's own 503 |
| `PostEditorTranslator.Stage2FailureReturnsDeepLText` | backend/translators/post_editor_translator.py:126-130 | when DeepL translates and the stage-2 request for its text raises, the caller gets DeepL's text exactly |
| `Api.GetModels` | backend/api.py:105-116 | one ModelInfo per `get_model_list` entry, in the same order, with the same fields |
| `Api.GetModelsListsTable` | backend/api.py:115-116 | the listed models are the registry's entries in order, and every listed id validates |
| `Api.ConnectionLowered` | backend/api.py:196 | a message containing "Connection" contains "connect" once lower-cased |
| `Api.ConnectionTestIsCaseInsensitive` | backend/api.py:196 | the connection test is exactly "connect" in any letter case; the "Connection" half adds nothing |
| `Api.ClassifyLemonadeError` | backend/api.py:187-205 | 404 if and only if the message says NOT_FOUND or "not found", naming the model; else 503 if and only if it mentions a connection; else 500 carrying the message |
| `Api.NotFoundBeforeConnection` | backend/api.py:191-195 | NOT_FOUND anywhere gives 404, whatever else the message says |
| `Api.ConnectInAnyCase` | backend/api.py:196-200 | "connect" in any case gives 503 unless the message also says "not found" |
| `Api.Translate` | backend/api.py:139-205 | no client gives 500, checked first; an unknown model gives 400 with the ValueError text; otherwise the service is asked with the request's model and the English names of the normalised codes; success answers with the stripped text, the request's model and the normalised codes; errors are classified |
| `Api.InvalidModelNeverCallsService` | backend/api.py:146-150 | an unknown model gives a 400 naming every accepted id, and the result does not depend on the service |
| `Api.ResponseIsNormalised` | backend/api.py:153-185 | a successful response echoes a registered model, carries codes that normalisation leaves unchanged, and has no whitespace at either end of its text |
| `Api.TranslateStatuses` | backend/api.py:139-205 | every failure is 500, 400, 404 or 503 |
| `Api.TranslateAnswered` | backend/api.py:153-185 | with a registered model and a service that answers, the response is the stripped answer, the request's model and both normalised codes |
| `Api.TranslateHelloWorld` | backend/api.py:139-185 | "Hello, world!" en->ko with gpt-4o-mini and a service answering "안녕, 세상!" gives exactly that text, gpt-4o-mini, en, ko |
| `Api.TranslateAcceptsFullNames` | backend/api.py:153-158 | the request languages "English" and "한국어" are answered as en and ko |

## Left out

- The FastAPI application, CORS setup, the `/` and `/health` routes, and the pydantic schemas. Only the fields of the translate request and response and of ModelInfo are modelled. The framework's check that `text` is non-empty is assumed done by the caller.
- The remote services: OpenAI and Lemonade chat completions, and DeepL's `translate_text`. Each is a parameter mapping the request to a returned text or a raised message. A reply whose content is None makes `.strip()` raise inside the same `try`, so it is covered by `Raised`.
- The module-level client creation in backend/translators/openai_translator.py:13-25 and backend/api.py:50-59: each client is a boolean input.
- The `temperature=0.3` argument of every chat request: a float constant with no logic, not carried in `ChatRequest`.
- `print` logging, `load_dotenv`/`os.getenv` (the DeepL key is an optional string input), and `async`.
- backend/translators/google_translator.py, backend/main.py, backend/run_server.py and backend/translators/__init__.py are not part of this model: a pass-through wrapper, a CLI demo, server start-up and re-exports.
- Text.Upper: maps ASCII letters only, where Python's `str.upper` also maps other letters (for example "ß" to "SS"). Language codes are ASCII.
- Text.Lower: maps ASCII letters only, where Python's `str.lower` also maps other letters. One of them, KELVIN SIGN U+212A, becomes ASCII "k". So a message containing "api_\u212Aey" is a 401 at backend/translators/openai_translator.py:99 but a 500 in `OpenAITranslator.ClassifyError`. Python's `lower()` maps exactly two non-ASCII characters to ASCII letters: U+212A to "k", and U+0130 to "i" followed by U+0307. "not found", "connect" and "authentication" contain no "k", and the combining U+0307 after such an "i" breaks every match. So those three tests agree with Python on every message; only "api_key" differs.
- The `print` calls inside the stage-1 `try` of backend/translators/post_editor_translator.py:53-56 are left out. A `print` that raises, for example an encoding error on a non-UTF-8 stdout, would give the 500 "DeepL 초기 번역 실패: …" there, which `PostEditorTranslator.TranslateWithPostEditor` never produces.
- DeepLTranslator.DeepLModule.InitClient: whether `deepl.Translator(key)` raises is a boolean input, and a client is identified by its key.
- OpenAITranslator.TranslateWithOpenAI: takes `source_lang` and `target_lang` but does not use them, just as the source does not.
