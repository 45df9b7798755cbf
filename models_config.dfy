/** The static model registry and the two language lookup tables of
    backend/models_config.py, with the four lookups built on them. Nothing here
    changes: every table is a constant and every lookup a function. */
module ModelsConfig {
  import opened Wrappers
  import opened Text

  /** One value of AVAILABLE_MODELS. The description is optional because the
      listing falls back to "" when an entry has none. */
  datatype ModelEntry = ModelEntry(displayName: string, description: Option<string>)

  /** A model table: (model id, entry) pairs in insertion order. */
  type ModelTable = seq<(string, ModelEntry)>

  /** AVAILABLE_MODELS, in the order its keys were inserted. */
  const AvailableModels: ModelTable := [
    ("gpt-3.5-turbo", ModelEntry("GPT-3.5 Turbo", Some("OpenAI의 가성비 좋은 모델 - 빠른 응답 속도"))),
    ("gpt-4o-mini", ModelEntry("GPT-4o Mini", Some("OpenAI의 빠르고 저렴한 최신 모델 - 번역에 최적화"))),
    ("gpt-4o", ModelEntry("GPT-4o", Some("OpenAI의 가장 강력한 모델 - 최고 품질 번역")))
  ]

  /** The keys of a table, in order (`table.keys()`). */
  function Keys(table: ModelTable): seq<string>
  {
    seq(|table|, i requires 0 <= i < |table| => table[i].0)
  }

  /** A Python dict never holds a key twice. */
  predicate DistinctKeys(table: ModelTable)
  {
    forall i, j :: 0 <= i < j < |table| ==> table[i].0 != table[j].0
  }

  /** The ids the gateway accepts. */
  function ModelIds(): seq<string>
  {
    Keys(AvailableModels)
  }

  lemma AvailableModelsWellFormed()
    ensures DistinctKeys(AvailableModels)
    ensures ModelIds() == ["gpt-3.5-turbo", "gpt-4o-mini", "gpt-4o"]
  {
    var ids := ModelIds();
    assert |ids| == 3;
    assert ids[0] == "gpt-3.5-turbo" && ids[1] == "gpt-4o-mini" && ids[2] == "gpt-4o";
  }

  /** One element of `get_model_list()`; the same shape as the API's ModelInfo. */
  datatype ModelListing = ModelListing(id: string, name: string, description: string)

  /** The list comprehension of `get_model_list`, over any table: one listing
      per entry, in table order, the id from the key, the name from the display
      name, and "" standing in for a missing description. */
  function ListModels(table: ModelTable): (r: seq<ModelListing>)
    ensures |r| == |table|
    ensures forall i :: 0 <= i < |table| ==>
      && r[i].id == table[i].0
      && r[i].name == table[i].1.displayName
      && r[i].description == (if table[i].1.description.Some? then table[i].1.description.value else "")
  {
    if table == [] then []
    else
      var (id, entry) := table[0];
      [ModelListing(id, entry.displayName, entry.description.GetOr(""))] + ListModels(table[1..])
  }

  /** `get_model_list()`. */
  function GetModelList(): (r: seq<ModelListing>)
    ensures |r| == |AvailableModels|
    ensures forall i :: 0 <= i < |r| ==> r[i].id == ModelIds()[i]
  {
    ListModels(AvailableModels)
  }

  /** The listing's ids are the table's keys in the table's order. */
  lemma ModelListMatchesTable()
    ensures |GetModelList()| == 3
    ensures GetModelList()[0] == ModelListing("gpt-3.5-turbo", "GPT-3.5 Turbo", "OpenAI의 가성비 좋은 모델 - 빠른 응답 속도")
    ensures GetModelList()[1] == ModelListing("gpt-4o-mini", "GPT-4o Mini", "OpenAI의 빠르고 저렴한 최신 모델 - 번역에 최적화")
    ensures GetModelList()[2] == ModelListing("gpt-4o", "GPT-4o", "OpenAI의 가장 강력한 모델 - 최고 품질 번역")
  {
  }

  /** The `ValueError` message of `get_full_model_name`. */
  function InvalidModelMessage(modelId: string): string
  {
    "Invalid model_id: " + modelId + ". Available models: " + Join(", ", ModelIds())
  }

  /** `get_full_model_name`: a known id comes back unchanged; any other raises
      `ValueError` (here: Failure with its message). */
  function GetFullModelName(modelId: string): (r: Result<string, string>)
    ensures r.Success? <==> modelId in ModelIds()
    ensures r.Success? ==> r.value == modelId
    ensures r.Failure? ==> Contains(r.error, modelId)
  {
    if modelId !in ModelIds() then
      ContainsInfix("Invalid model_id: ", modelId, ". Available models: " + Join(", ", ModelIds()));
      assert "Invalid model_id: " + modelId + (". Available models: " + Join(", ", ModelIds()))
          == InvalidModelMessage(modelId);
      Failure(InvalidModelMessage(modelId))
    else
      Success(modelId)
  }

  /** The error for an unknown id names every id the gateway accepts. */
  lemma InvalidModelMessageListsAll(modelId: string, known: string)
    requires modelId !in ModelIds()
    requires known in ModelIds()
    ensures GetFullModelName(modelId).Failure?
    ensures Contains(GetFullModelName(modelId).error, known)
  {
    var i :| 0 <= i < |ModelIds()| && ModelIds()[i] == known;
    JoinContainsEach(", ", ModelIds(), i);
    ContainsPrepend("Invalid model_id: " + modelId + ". Available models: ", Join(", ", ModelIds()), known);
  }

  /** The message in full, with the ids in table order. */
  lemma InvalidModelMessageText(modelId: string)
    requires modelId !in ModelIds()
    ensures GetFullModelName(modelId)
         == Failure("Invalid model_id: " + modelId + ". Available models: "
                    + "gpt-3.5-turbo" + ", " + "gpt-4o-mini" + ", " + "gpt-4o")
  {
    JoinedModelIds();
    var head := "Invalid model_id: " + modelId + ". Available models: ";
    var a, b, c := "gpt-3.5-turbo", "gpt-4o-mini", "gpt-4o";
    assert head + (a + ", " + b + ", " + c) == head + a + ", " + b + ", " + c;
  }

  lemma JoinedModelIds()
    ensures Join(", ", ModelIds()) == "gpt-3.5-turbo" + ", " + "gpt-4o-mini" + ", " + "gpt-4o"
  {
    AvailableModelsWellFormed();
    JoinThree(", ", "gpt-3.5-turbo", "gpt-4o-mini", "gpt-4o");
  }

  /** LANGUAGE_MAPPING: a language's own name to its code. */
  const LanguageMapping: map<string, string> := map[
    "한국어" := "ko",
    "English" := "en",
    "日本語" := "ja",
    "中文" := "zh",
    "Español" := "es",
    "Français" := "fr",
    "Deutsch" := "de"
  ]

  /** LANGUAGE_NAMES: a code to the language's English name. */
  const LanguageNames: map<string, string> := map[
    "ko" := "Korean",
    "en" := "English",
    "ja" := "Japanese",
    "zh" := "Chinese",
    "es" := "Spanish",
    "fr" := "French",
    "de" := "German"
  ]

  /** `get_language_code`: `LANGUAGE_MAPPING.get(name, name)`. It never fails:
      the result is a code the names table knows, or the input itself. */
  function GetLanguageCode(name: string): (code: string)
    ensures code == name || code in LanguageNames
    ensures name !in LanguageMapping ==> code == name
  {
    if name in LanguageMapping then LanguageMapping[name] else name
  }

  /** `get_language_name`: `LANGUAGE_NAMES.get(code, code)`. It never fails:
      the result is one of the English names, or the input itself. */
  function GetLanguageName(code: string): (name: string)
    ensures name == code || name in LanguageNames.Values
    ensures code !in LanguageNames ==> name == code
  {
    if code in LanguageNames then LanguageNames[code] else code
  }

  /** No code produced by the mapping is itself one of its names. */
  lemma CodesAreNotNames()
    ensures forall n :: n in LanguageMapping ==> LanguageMapping[n] !in LanguageMapping
  {
  }

  /** The seven known names map to their codes. */
  lemma LanguageCodeOfKnownNames()
    ensures GetLanguageCode("한국어") == "ko" && GetLanguageCode("English") == "en"
    ensures GetLanguageCode("日本語") == "ja" && GetLanguageCode("中文") == "zh"
    ensures GetLanguageCode("Español") == "es" && GetLanguageCode("Français") == "fr"
    ensures GetLanguageCode("Deutsch") == "de"
    ensures |LanguageMapping| == 7
  {
  }

  /** Normalising an already normalised token changes nothing. */
  lemma LanguageCodeIdempotent(token: string)
    ensures GetLanguageCode(GetLanguageCode(token)) == GetLanguageCode(token)
  {
    CodesAreNotNames();
  }

  /** A code is left as it is: "en" stays "en". */
  lemma LanguageCodeOfCode(code: string)
    requires code in LanguageNames
    ensures GetLanguageCode(code) == code
  {
  }

  /** Korean and English given by their codes stay codes. */
  lemma KoreanAndEnglishCodesFixed()
    ensures GetLanguageCode("ko") == "ko" && GetLanguageCode("en") == "en"
  {
    LanguageCodeOfCode("ko");
    LanguageCodeOfCode("en");
  }

  /** The seven known codes map to their English names. */
  lemma LanguageNameOfKnownCodes()
    ensures GetLanguageName("ko") == "Korean" && GetLanguageName("en") == "English"
    ensures GetLanguageName("ja") == "Japanese" && GetLanguageName("zh") == "Chinese"
    ensures GetLanguageName("es") == "Spanish" && GetLanguageName("fr") == "French"
    ensures GetLanguageName("de") == "German"
    ensures |LanguageNames| == 7
  {
  }

  /** Every code the mapping produces has an English name: looking a known
      name up and then naming its code is always a table hit. */
  lemma NameOfCodeOfKnownName(name: string)
    requires name in LanguageMapping
    ensures GetLanguageCode(name) in LanguageNames
    ensures GetLanguageName(GetLanguageCode(name)) in LanguageNames.Values
  {
  }

  /** The two tables are not mutual inverses: the names in LANGUAGE_MAPPING are
      the languages' own names and those in LANGUAGE_NAMES are English ones, so
      name -> code -> name gives back the input for "English" alone. */
  lemma NameRoundTripOnlyForEnglish(name: string)
    requires name in LanguageMapping
    ensures GetLanguageName(GetLanguageCode(name)) == name <==> name == "English"
  {
  }
}
