/**
 * The FastAPI inference server: the registry of loaded models (the global
 * `models` and `tokenizers` dictionaries), the `/health`, `/models` and
 * `/predict` endpoints, prompt preparation and `cleanup_model_config`.
 * Model loading and text generation are foreign calls; they enter the model
 * as parameters (`LoadOutcome` per configured model, a `Generator` function).
 */
module InferenceServer {
  import opened Wrappers
  import opened Text

  const DefaultMaxLength: int := 200
  const DefaultTemperature: real := 1.0
  const DefaultNumBeams: int := 4

  const Bart := "bart"
  const T5 := "t5"
  const FlanT5 := "flan-t5"
  const Pegasus := "pegasus"

  /** The keys of MODEL_PATHS, in declaration order. */
  const ConfiguredModels: seq<string> := [Bart, T5, FlanT5, Pegasus]

  const NoModelsDetail := "No models have been loaded"
  const UnavailablePrefix := "Requested models not available: "
  const ErrorPrefix := "Error generating answer: "
  const T5Prefix := "question: "

  const BartDescription := "BART (Bidirectional and Auto-Regressive Transformers) - Denoising autoencoder for sequence-to-sequence tasks"
  const T5Description := "T5 (Text-to-Text Transfer Transformer) - Unified framework for NLP tasks as text-to-text generation"
  const FlanT5Description := "Flan-T5 - T5 model fine-tuned on a collection of tasks described via instructions"
  const PegasusDescription := "Pegasus - Model optimized for abstractive summarization tasks"

  /** MODEL_DESCRIPTIONS.get(name, "No description available"). */
  function Description(name: string): (d: string)
    ensures d == "No description available" <==> name !in ConfiguredModels
    ensures name == Bart ==> d == BartDescription
    ensures name == T5 ==> d == T5Description
    ensures name == FlanT5 ==> d == FlanT5Description
    ensures name == Pegasus ==> d == PegasusDescription
  {
    if name == Bart then BartDescription
    else if name == T5 then T5Description
    else if name == FlanT5 then FlanT5Description
    else if name == Pegasus then PegasusDescription
    else "No description available"
  }

  /** The attribute values of a model's `config` object. */
  datatype ConfigValue = Number(r: real) | Flag(b: bool) | Str(s: string)
  type ModelConfig = map<string, ConfigValue>

  /** What the startup hook observed for one configured model. */
  datatype LoadOutcome =
    | PathMissing                           // os.path.exists was false
    | ModelLoadFailed                       // from_pretrained of the model raised
    | TokenizerLoadFailed(config: ModelConfig)  // the model loaded, its tokenizer raised
    | Loaded(config: ModelConfig)           // both loaded
  {
    predicate HasModel() { TokenizerLoadFailed? || Loaded? }
  }

  /** The optional `parameters` object of a request; Pydantic defaults each absent field. */
  datatype RequestParameters = RequestParameters(maxLength: Option<int>, temperature: Option<real>, numBeams: Option<int>)
  datatype GenerationParameters = GenerationParameters(maxLength: int, temperature: real, numBeams: int)
  datatype QuestionRequest = QuestionRequest(question: string, models: Option<seq<string>>, parameters: Option<RequestParameters>)

  datatype ModelAnswer = ModelAnswer(modelName: string, answer: string, latencyMs: real)
  datatype PredictResult =
    | Answered(question: string, answers: seq<ModelAnswer>)
    | HttpError(status: nat, detail: string)

  datatype HealthResponse = HealthResponse(status: string, modelsLoaded: map<string, bool>)
  datatype ModelInfo = ModelInfo(name: string, loaded: bool, description: string)
  datatype ModelsResponse = ModelsResponse(availableModels: seq<ModelInfo>, loadedCount: nat, totalCount: nat)

  /** The result of tokenizing, generating and decoding with one model, or the message of the exception it raised. */
  datatype GenOutcome = Generated(text: string, latencyMs: real) | Raised(message: string)
  type Generator = (string, string, GenerationParameters) -> GenOutcome

  predicate Distinct(s: seq<string>) {
    forall i, j :: 0 <= i < j < |s| ==> s[i] != s[j]
  }

  /** No model name is configured twice. */
  lemma ConfiguredModelsDistinct()
    ensures Distinct(ConfiguredModels)
  {
  }

  /** The configured models whose model object loaded, in configuration order. */
  function ModelsThatLoad(names: seq<string>, outcome: string -> LoadOutcome): (r: seq<string>)
    ensures forall n :: n in r <==> n in names && outcome(n).HasModel()
  {
    if names == [] then []
    else
      var last := names[|names| - 1];
      ModelsThatLoad(names[..|names| - 1], outcome) + (if outcome(last).HasModel() then [last] else [])
  }

  /** The parameters generation runs with: each absent field takes its default. */
  function EffectiveParameters(p: Option<RequestParameters>): (g: GenerationParameters)
    ensures p.None? ==> g == GenerationParameters(DefaultMaxLength, DefaultTemperature, DefaultNumBeams)
    ensures p.Some? ==>
      && g.maxLength == p.value.maxLength.GetOr(DefaultMaxLength)
      && g.temperature == p.value.temperature.GetOr(DefaultTemperature)
      && g.numBeams == p.value.numBeams.GetOr(DefaultNumBeams)
  {
    match p
    case None => GenerationParameters(DefaultMaxLength, DefaultTemperature, DefaultNumBeams)
    case Some(q) => GenerationParameters(q.maxLength.GetOr(DefaultMaxLength), q.temperature.GetOr(DefaultTemperature), q.numBeams.GetOr(DefaultNumBeams))
  }

  /** `request.models if request.models else list(models.keys())`. */
  function SelectedModels(requested: Option<seq<string>>, loadOrder: seq<string>): (r: seq<string>)
    ensures requested.Some? && requested.value != [] ==> r == requested.value
    ensures !(requested.Some? && requested.value != []) ==> r == loadOrder
    ensures r == [] <==> loadOrder == [] && requested.GetOr([]) == []
    ensures forall n :: n in r ==> n in requested.GetOr([]) || n in loadOrder
  {
    if requested.Some? && requested.value != [] then requested.value else loadOrder
  }

  /** The requested names that are not loaded, in request order (duplicates kept). */
  function Unloaded(names: seq<string>, loaded: set<string>): (r: seq<string>)
    ensures forall n :: n in r <==> n in names && n !in loaded
    ensures r == [] <==> forall n :: n in names ==> n in loaded
  {
    if names == [] then []
    else
      var rest := Unloaded(names[1..], loaded);
      if names[0] in loaded then rest else [names[0]] + rest
  }

  /** Each unloaded name is listed as often as it was requested; loaded names are not listed. */
  lemma {:induction false} UnloadedMultiplicity(names: seq<string>, loaded: set<string>, n: string)
    ensures multiset(Unloaded(names, loaded))[n] == if n in loaded then 0 else multiset(names)[n]
  {
    if names != [] {
      UnloadedMultiplicity(names[1..], loaded, n);
      assert names == [names[0]] + names[1..];
      assert multiset(names) == multiset([names[0]]) + multiset(names[1..]);
    }
  }

  /** The unloaded list of a concatenation is the concatenation of the unloaded lists: request order is kept. */
  lemma {:induction false} UnloadedAppend(a: seq<string>, b: seq<string>, loaded: set<string>)
    ensures Unloaded(a + b, loaded) == Unloaded(a, loaded) + Unloaded(b, loaded)
  {
    if a == [] {
      assert a + b == b;
    } else {
      assert (a + b)[0] == a[0];
      assert (a + b)[1..] == a[1..] + b;
      UnloadedAppend(a[1..], b, loaded);
      var x, y := Unloaded(a[1..], loaded), Unloaded(b, loaded);
      assert [a[0]] + (x + y) == ([a[0]] + x) + y;
    }
  }

  /** `question.lower().strip()`: the text every model is prompted with. */
  function PreparedQuestion(question: string): (r: string)
    ensures r == Lower(Strip(question))
    ensures r == [] || (!IsSpace(r[0]) && !IsSpace(r[|r| - 1]))
    ensures forall i :: 0 <= i < |r| ==> !('A' <= r[i] <= 'Z')
  {
    StripLowerCommute(question);
    var r := Strip(Lower(question));
    assert r == Lower(Strip(question));
    r
  }

  /**
   * The input text `process_bart`, `process_t5` and `process_pegasus` hand to the
   * tokenizer; None for a name none of them handles.
   */
  function PromptText(name: string, question: string): (r: Option<string>)
    ensures r.Some? <==> name in ConfiguredModels
    ensures name == Bart || name == Pegasus ==> r == Some(Lower(Strip(question)))
    ensures name == T5 || name == FlanT5 ==> r == Some(T5Prefix + Lower(Strip(question)))
  {
    if name == Bart || name == Pegasus then Some(PreparedQuestion(question))
    else if name == T5 || name == FlanT5 then Some(T5Prefix + PreparedQuestion(question))
    else None
  }

  /** True when the model named `name` runs to completion and produces text. */
  predicate Generates(name: string, question: string, params: GenerationParameters, tokenizers: set<string>, generate: Generator) {
    && PromptText(name, question).Some?
    && name in tokenizers
    && generate(name, PromptText(name, question).value, params).Generated?
  }

  /** The answer text that replaces the output of a model that raised `detail`. */
  function ErrorText(detail: string): (r: string)
    ensures ErrorPrefix <= r
  {
    var r := ErrorPrefix + detail;
    assert r[..|ErrorPrefix|] == ErrorPrefix;
    r
  }

  /** One iteration of the answer loop of `generate_answers`: any exception becomes an error answer. */
  function AnswerFor(name: string, question: string, params: GenerationParameters, tokenizers: set<string>, generate: Generator): (a: ModelAnswer)
    ensures a.modelName == name
    ensures Generates(name, question, params, tokenizers, generate) ==>
      var g := generate(name, PromptText(name, question).value, params);
      a.answer == g.text && a.latencyMs == g.latencyMs
    ensures !Generates(name, question, params, tokenizers, generate) ==>
      a.latencyMs == 0.0 && ErrorPrefix <= a.answer
  {
    match PromptText(name, question)
    case None =>
      // ValueError raised by the final else branch of the dispatch
      ModelAnswer(name, ErrorText("Processing not implemented for model '" + name + "'"), 0.0)
    case Some(prompt) =>
      if name !in tokenizers then
        // KeyError from tokenizers[model_name]; str() of it is the quoted key
        ModelAnswer(name, ErrorText("'" + name + "'"), 0.0)
      else
        match generate(name, prompt, params)
        case Generated(text, ms) => ModelAnswer(name, text, ms)
        case Raised(message) => ModelAnswer(name, ErrorText(message), 0.0)
  }

  /** The answers list of a successful `/predict`: one per selected name, each computed on its own. */
  function Answers(names: seq<string>, question: string, params: GenerationParameters, tokenizers: set<string>, generate: Generator): (r: seq<ModelAnswer>)
    ensures |r| == |names|
    ensures forall i :: 0 <= i < |names| ==> r[i].modelName == names[i]
    ensures forall i :: 0 <= i < |names| ==> r[i] == AnswerFor(names[i], question, params, tokenizers, generate)
  {
    seq(|names|, i requires 0 <= i < |names| => AnswerFor(names[i], question, params, tokenizers, generate))
  }

  /** The response of `/predict` for a registry state and a request. */
  function Respond(loadOrder: seq<string>, models: map<string, ModelConfig>, tokenizers: set<string>,
                   request: QuestionRequest, generate: Generator): (r: PredictResult)
    requires forall n :: n in models <==> n in loadOrder
    ensures r.HttpError? ==> r.status in {400, 503}
    ensures (r.HttpError? && r.status == 503) <==> models == map[]
    ensures (r.HttpError? && r.status == 400) <==>
      models != map[] && exists n :: n in SelectedModels(request.models, loadOrder) && n !in models
    ensures r.HttpError? && r.status == 400 ==>
      r.detail == UnavailablePrefix + Join(", ", Unloaded(SelectedModels(request.models, loadOrder), models.Keys))
    ensures r.Answered? ==>
      var names := SelectedModels(request.models, loadOrder);
      && r.question == request.question
      && |r.answers| == |names|
      && (forall i :: 0 <= i < |names| ==> r.answers[i].modelName == names[i] && names[i] in models)
  {
    if models == map[] then HttpError(503, NoModelsDetail)
    else
      var names := SelectedModels(request.models, loadOrder);
      var missing := Unloaded(names, models.Keys);
      if missing != [] then
        assert missing[0] in names;
        HttpError(400, UnavailablePrefix + Join(", ", missing))
      else
        Answered(request.question, Answers(names, request.question, EffectiveParameters(request.parameters), tokenizers, generate))
  }

  /**
   * The answer loop of `generate_answers`: it appends one answer per name, in order,
   * and a failing model yields an error answer without stopping the loop.
   */
  method GenerateAnswers(names: seq<string>, question: string, params: GenerationParameters,
                         tokenizers: set<string>, generate: Generator) returns (answers: seq<ModelAnswer>)
    ensures |answers| == |names|
    ensures forall i :: 0 <= i < |names| ==> answers[i] == AnswerFor(names[i], question, params, tokenizers, generate)
  {
    answers := [];
    for i := 0 to |names|
      invariant |answers| == i
      invariant forall j :: 0 <= j < i ==> answers[j] == AnswerFor(names[j], question, params, tokenizers, generate)
    {
      var answer: ModelAnswer;
      var prompt := PromptText(names[i], question);
      if prompt.None? {
        answer := ModelAnswer(names[i], ErrorText("Processing not implemented for model '" + names[i] + "'"), 0.0);
      } else if names[i] !in tokenizers {
        answer := ModelAnswer(names[i], ErrorText("'" + names[i] + "'"), 0.0);
      } else {
        var outcome := generate(names[i], prompt.value, params);
        if outcome.Generated? {
          answer := ModelAnswer(names[i], outcome.text, outcome.latencyMs);
        } else {
          answer := ModelAnswer(names[i], ErrorText(outcome.message), 0.0);
        }
      }
      answers := answers + [answer];
    }
  }

  /** With no `models` list, or an empty one, every loaded model answers, in load order. */
  lemma DefaultSelectsAllLoaded(loadOrder: seq<string>, models: map<string, ModelConfig>, tokenizers: set<string>,
                                request: QuestionRequest, generate: Generator)
    requires forall n :: n in models <==> n in loadOrder
    requires models != map[]
    requires request.models == None || request.models == Some([])
    ensures var r := Respond(loadOrder, models, tokenizers, request, generate);
      && r.Answered?
      && |r.answers| == |loadOrder|
      && forall i :: 0 <= i < |loadOrder| ==> r.answers[i].modelName == loadOrder[i]
  {
  }

  /** A non-empty `models` list naming only loaded models is answered by exactly those models, in the order given, duplicates included. */
  lemma ExplicitRequestIsAnsweredAsGiven(loadOrder: seq<string>, models: map<string, ModelConfig>, tokenizers: set<string>,
                                         request: QuestionRequest, generate: Generator)
    requires forall n :: n in models <==> n in loadOrder
    requires request.models.Some? && request.models.value != []
    requires forall n :: n in request.models.value ==> n in models
    ensures var r := Respond(loadOrder, models, tokenizers, request, generate);
      var ns := request.models.value;
      && r.Answered?
      && |r.answers| == |ns|
      && forall i :: 0 <= i < |ns| ==> r.answers[i].modelName == ns[i]
  {
    var n0 := request.models.value[0];
    assert n0 in models;
  }

  /**
   * A request naming an unloaded model is rejected with 400, and the detail names
   * exactly the unloaded models of the request, each as often as requested.
   */
  lemma RejectionNamesExactlyTheUnloaded(loadOrder: seq<string>, models: map<string, ModelConfig>, tokenizers: set<string>,
                                         request: QuestionRequest, generate: Generator, missing: string)
    requires forall n :: n in models <==> n in loadOrder
    requires models != map[]
    requires request.models.Some? && missing in request.models.value && missing !in models
    ensures var r := Respond(loadOrder, models, tokenizers, request, generate);
      var listed := Unloaded(request.models.value, models.Keys);
      && r == HttpError(400, UnavailablePrefix + Join(", ", listed))
      && missing in listed
      && multiset(listed)[missing] == multiset(request.models.value)[missing]
  {
    UnloadedMultiplicity(request.models.value, models.Keys, missing);
  }

  /**
   * Each answer of a successful `/predict` depends only on its own model: a model
   * that raises gets an error answer with latency 0 and the other models still answer.
   */
  lemma FailureIsConfinedToItsAnswer(loadOrder: seq<string>, models: map<string, ModelConfig>, tokenizers: set<string>,
                                     request: QuestionRequest, generate: Generator, i: nat)
    requires forall n :: n in models <==> n in loadOrder
    requires Respond(loadOrder, models, tokenizers, request, generate).Answered?
    requires i < |SelectedModels(request.models, loadOrder)|
    ensures var r := Respond(loadOrder, models, tokenizers, request, generate);
      var names := SelectedModels(request.models, loadOrder);
      var params := EffectiveParameters(request.parameters);
      && r.answers[i] == AnswerFor(names[i], request.question, params, tokenizers, generate)
      && (!Generates(names[i], request.question, params, tokenizers, generate) ==>
            r.answers[i].latencyMs == 0.0 && ErrorPrefix <= r.answers[i].answer)
  {
  }

  /** The attributes `cleanup_model_config` deletes. */
  const GenerationKeys: set<string> := {"max_length", "num_beams", "length_penalty"}

  /** A config with the generation attributes deleted. */
  function WithoutGenerationKeys(config: ModelConfig): (r: ModelConfig)
    ensures r.Keys == config.Keys - GenerationKeys
    ensures forall k :: k in r ==> r[k] == config[k]
  {
    config - GenerationKeys
  }

  /** Cleaning a config twice is the same as cleaning it once. */
  lemma CleanupIdempotent(config: ModelConfig)
    ensures WithoutGenerationKeys(WithoutGenerationKeys(config)) == WithoutGenerationKeys(config)
  {
  }

  /** The `/health` body, apart from the uptime. */
  function HealthCheck(loaded: set<string>): (h: HealthResponse)
    ensures h.status == "healthy" || h.status == "degraded"
    ensures h.status == "healthy" <==> loaded != {}
    ensures forall n :: n in h.modelsLoaded <==> n in ConfiguredModels
    ensures forall n :: n in h.modelsLoaded ==> (h.modelsLoaded[n] <==> n in loaded)
  {
    HealthResponse(if loaded != {} then "healthy" else "degraded",
                   map n | n in ConfiguredModels :: n in loaded)
  }

  /** When only configured models can be loaded, the server is healthy exactly when `models_loaded` reports one as true. */
  lemma HealthyIffSomeModelReported(loaded: set<string>)
    requires forall n :: n in loaded ==> n in ConfiguredModels
    ensures var h := HealthCheck(loaded);
      h.status == "healthy" <==> exists n :: n in h.modelsLoaded && h.modelsLoaded[n]
  {
    var h := HealthCheck(loaded);
    if loaded != {} {
      var n :| n in loaded;
      assert n in h.modelsLoaded && h.modelsLoaded[n];
    }
  }

  /** The `/models` body: one entry per configured model, in configuration order. */
  method ListModels(models: map<string, ModelConfig>) returns (r: ModelsResponse)
    ensures |r.availableModels| == |ConfiguredModels|
    ensures forall i :: 0 <= i < |ConfiguredModels| ==>
      r.availableModels[i] == ModelInfo(ConfiguredModels[i], ConfiguredModels[i] in models, Description(ConfiguredModels[i]))
    ensures r.loadedCount == |models|
    ensures r.totalCount == 4
  {
    var infos: seq<ModelInfo> := [];
    for i := 0 to |ConfiguredModels|
      invariant |infos| == i
      invariant forall j :: 0 <= j < i ==>
        infos[j] == ModelInfo(ConfiguredModels[j], ConfiguredModels[j] in models, Description(ConfiguredModels[j]))
    {
      var name := ConfiguredModels[i];
      infos := infos + [ModelInfo(name, name in models, Description(name))];
    }
    r := ModelsResponse(infos, |models|, |ConfiguredModels|);
  }

  /** The number of entries that say `loaded`. */
  function CountLoaded(infos: seq<ModelInfo>): nat {
    if infos == [] then 0 else (if infos[0].loaded then 1 else 0) + CountLoaded(infos[1..])
  }

  lemma {:induction false} CountLoadedIsCardinality(names: seq<string>, infos: seq<ModelInfo>, loaded: set<string>)
    requires Distinct(names) && |infos| == |names|
    requires forall i :: 0 <= i < |names| ==> infos[i].loaded == (names[i] in loaded)
    ensures CountLoaded(infos) == |set n | n in names && n in loaded|
  {
    if names != [] {
      CountLoadedIsCardinality(names[1..], infos[1..], loaded);
      var rest := set n | n in names[1..] && n in loaded;
      var all := set n | n in names && n in loaded;
      assert names[0] !in rest;
      if names[0] in loaded {
        assert all == rest + {names[0]};
      } else {
        assert all == rest;
      }
    }
  }

  /**
   * When only configured models can be loaded, `loaded_count` equals the number of
   * entries of `available_models` marked loaded.
   */
  lemma LoadedCountMatchesEntries(models: map<string, ModelConfig>, r: ModelsResponse)
    requires forall n :: n in models ==> n in ConfiguredModels
    requires |r.availableModels| == |ConfiguredModels|
    requires forall i :: 0 <= i < |ConfiguredModels| ==>
      r.availableModels[i] == ModelInfo(ConfiguredModels[i], ConfiguredModels[i] in models, Description(ConfiguredModels[i]))
    requires r.loadedCount == |models|
    ensures r.loadedCount == CountLoaded(r.availableModels)
  {
    CountLoadedIsCardinality(ConfiguredModels, r.availableModels, models.Keys);
    assert (set n | n in ConfiguredModels && n in models.Keys) == models.Keys;
  }

  /**
   * The loading loop of the lifespan hook: each name is tried in order; a model whose
   * object loads is kept, in load order, even when its tokenizer then fails.
   */
  method LoadModels(names: seq<string>, outcome: string -> LoadOutcome)
    returns (order: seq<string>, loaded: map<string, ModelConfig>, toks: set<string>)
    requires Distinct(names)
    ensures order == ModelsThatLoad(names, outcome)
    ensures Distinct(order)
    ensures forall n :: n in loaded <==> n in order
    ensures forall n :: n in loaded ==> loaded[n] == outcome(n).config
    ensures forall n :: n in toks <==> n in names && outcome(n).Loaded?
  {
    order, loaded, toks := [], map[], {};
    for i := 0 to |names|
      invariant order == ModelsThatLoad(names[..i], outcome)
      invariant Distinct(order)
      invariant forall n :: n in loaded <==> n in order
      invariant forall n :: n in loaded ==> loaded[n] == outcome(n).config
      invariant forall n :: n in toks <==> n in names[..i] && outcome(n).Loaded?
    {
      var name := names[i];
      assert names[..i + 1] == names[..i] + [name];
      assert name !in names[..i];
      var attempt := outcome(name);
      if attempt.HasModel() {
        order, loaded := order + [name], loaded[name := attempt.config];
      }
      if attempt.Loaded? {
        toks := toks + {name};
      }
    }
    assert names[..|names|] == names;
  }

  /**
   * The server process: the `models` and `tokenizers` dictionaries. A Python dict
   * keeps insertion order, so the model keys are held as `loadOrder` beside the map.
   */
  class Server {
    var loadOrder: seq<string>
    var models: map<string, ModelConfig>
    var tokenizers: set<string>

    ghost predicate Valid()
      reads this
    {
      && Distinct(loadOrder)
      && (forall n :: n in models <==> n in loadOrder)
      && (forall n :: n in models ==> n in ConfiguredModels)
      && tokenizers <= models.Keys
    }

    /** The startup half of the lifespan hook, run once on the empty dictionaries. */
    constructor Startup(outcome: string -> LoadOutcome)
      ensures Valid()
      ensures loadOrder == ModelsThatLoad(ConfiguredModels, outcome)
      ensures forall n :: n in models ==> outcome(n).HasModel() && models[n] == outcome(n).config
      ensures forall n :: n in tokenizers <==> n in ConfiguredModels && outcome(n).Loaded?
    {
      ConfiguredModelsDistinct();
      var order, loaded, toks := LoadModels(ConfiguredModels, outcome);
      loadOrder, models, tokenizers := order, loaded, toks;
    }

    /** The shutdown half of the lifespan hook: both dictionaries are cleared. */
    method Shutdown()
      modifies this
      ensures Valid()
      ensures loadOrder == [] && models == map[] && tokenizers == {}
    {
      loadOrder, models, tokenizers := [], map[], {};
    }

    /** `cleanup_model_config` on the loaded model `name`: its config loses the generation attributes in place. */
    method CleanupModelConfig(name: string)
      requires Valid() && name in models
      modifies this
      ensures Valid()
      ensures models == old(models)[name := WithoutGenerationKeys(old(models)[name])]
      ensures loadOrder == old(loadOrder) && tokenizers == old(tokenizers)
    {
      ghost var original := models[name];
      var config := models[name];
      if "max_length" in config {
        config := config - {"max_length"};
      }
      assert config == original - {"max_length"};
      if "num_beams" in config {
        config := config - {"num_beams"};
      }
      assert config == original - {"max_length", "num_beams"};
      if "length_penalty" in config {
        config := config - {"length_penalty"};
      }
      assert config == original - GenerationKeys;
      models := models[name := config];
    }

    /** `/predict`. Answering with Pegasus cleans the Pegasus config first. */
    method Predict(request: QuestionRequest, generate: Generator) returns (r: PredictResult)
      requires Valid()
      modifies this
      ensures Valid()
      ensures r == Respond(old(loadOrder), old(models), old(tokenizers), request, generate)
      ensures loadOrder == old(loadOrder) && tokenizers == old(tokenizers)
      ensures models == if r.Answered? && Pegasus in SelectedModels(request.models, old(loadOrder))
                        then old(models)[Pegasus := WithoutGenerationKeys(old(models)[Pegasus])]
                        else old(models)
    {
      if models == map[] {
        r := HttpError(503, NoModelsDetail);
        return;
      }
      var names := SelectedModels(request.models, loadOrder);
      var missing := Unloaded(names, models.Keys);
      if missing != [] {
        r := HttpError(400, UnavailablePrefix + Join(", ", missing));
        return;
      }
      var params := EffectiveParameters(request.parameters);
      if Pegasus in names {
        CleanupModelConfig(Pegasus);
      }
      var answers := GenerateAnswers(names, request.question, params, tokenizers, generate);
      assert answers == Answers(names, request.question, params, tokenizers, generate);
      r := Answered(request.question, answers);
    }
  }

  /** In a valid registry every loaded model has a processor, so no answer reports an unimplemented model. */
  lemma LoadedModelsHaveProcessors(loadOrder: seq<string>, models: map<string, ModelConfig>, tokenizers: set<string>,
                                   request: QuestionRequest, generate: Generator, i: nat)
    requires forall n :: n in models <==> n in loadOrder
    requires forall n :: n in models ==> n in ConfiguredModels
    requires Respond(loadOrder, models, tokenizers, request, generate).Answered?
    requires i < |SelectedModels(request.models, loadOrder)|
    ensures PromptText(SelectedModels(request.models, loadOrder)[i], request.question).Some?
  {
  }
}
