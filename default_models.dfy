/** The default model catalog: one list of model names per endpoint,
    assembled from the `ModelService` fetchers and two fixed lists.

    The fetchers' code is not part of this model; they are given as a
    `ModelService` value whose functions either return a list or throw.
    The statements that bind the fetched lists run one after another, and
    the first fetch that throws makes the whole call reject. */
module DefaultModels {
  import opened Wrappers

  type ModelList = seq<string>

  /** The options object handed to `getOpenAIModels`; an absent property
      is `None`. */
  datatype OpenAIOptions = OpenAIOptions(user: string, azure: Option<bool>, plugins: Option<bool>)

  /** The four fetchers of `ModelService`. */
  datatype ModelService = ModelService(
    getOpenAIModels: OpenAIOptions -> Result<ModelList>,
    getGoogleModels: () -> Result<ModelList>,
    getAnthropicModels: () -> Result<ModelList>,
    getChatGPTBrowserModels: () -> Result<ModelList>)

  /** The endpoint configuration read once, when the module is loaded. */
  datatype EndpointConfig = EndpointConfig(useAzurePlugins: bool)

  /** One fetcher call, with its argument. */
  datatype Fetch =
    | GoogleFetch
    | OpenAIFetch(options: OpenAIOptions)
    | AnthropicFetch
    | ChatGPTBrowserFetch

  function Invoke(service: ModelService, fetch: Fetch): (result: Result<ModelList>) {
    match fetch
    case GoogleFetch => service.getGoogleModels()
    case OpenAIFetch(options) => service.getOpenAIModels(options)
    case AnthropicFetch => service.getAnthropicModels()
    case ChatGPTBrowserFetch => service.getChatGPTBrowserModels()
  }

  /** The options of the three `getOpenAIModels` calls. */
  function OpenAIPlain(user: string): (options: OpenAIOptions) {
    OpenAIOptions(user, None, None)
  }

  function AzureOpenAI(user: string): (options: OpenAIOptions) {
    OpenAIOptions(user, Some(true), None)
  }

  function GptPlugins(user: string, config: EndpointConfig): (options: OpenAIOptions) {
    OpenAIOptions(user, Some(config.useAzurePlugins), Some(true))
  }

  /** The six fetches, in the order the statements of the loader run. */
  function Plan(user: string, config: EndpointConfig): (plan: seq<Fetch>)
    ensures |plan| == 6
    ensures forall i :: 0 <= i < |plan| && plan[i].OpenAIFetch? ==> plan[i].options.user == user
  {
    [ GoogleFetch,
      OpenAIFetch(OpenAIPlain(user)),
      AnthropicFetch,
      ChatGPTBrowserFetch,
      OpenAIFetch(AzureOpenAI(user)),
      OpenAIFetch(GptPlugins(user, config)) ]
  }

  /** The fetches attempted, and either every fetched list or the first
      error. */
  datatype Run = Run(attempted: seq<Fetch>, outcome: Result<seq<ModelList>>)

  /** Runs `fetches` one after another; the first that throws ends the run
      and its error is the run's error. */
  function RunInOrder(service: ModelService, fetches: seq<Fetch>): (r: Run)
    ensures r.attempted <= fetches
    ensures r.outcome.Ok? <==> forall i :: 0 <= i < |fetches| ==> Invoke(service, fetches[i]).Ok?
    ensures r.outcome.Ok? ==>
              && r.attempted == fetches
              && |r.outcome.value| == |fetches|
              && forall i :: 0 <= i < |fetches| ==> r.outcome.value[i] == Invoke(service, fetches[i]).value
    ensures r.outcome.Err? ==>
              && |r.attempted| > 0
              && Invoke(service, r.attempted[|r.attempted| - 1]) == Err(r.outcome.error)
              && forall i :: 0 <= i < |r.attempted| - 1 ==> Invoke(service, r.attempted[i]).Ok?
  {
    if fetches == [] then Run([], Ok([]))
    else
      match Invoke(service, fetches[0])
      case Err(e) => Run([fetches[0]], Err(e))
      case Ok(models) =>
        var rest := RunInOrder(service, fetches[1..]);
        match rest.outcome
        case Err(e) => Run([fetches[0]] + rest.attempted, Err(e))
        case Ok(lists) => Run(fetches, Ok([models] + lists))
  }

  // The catalog keys (the `EModelEndpoint` values used by the loader).
  const OpenAIKey := "openAI"
  const GoogleKey := "google"
  const AnthropicKey := "anthropic"
  const GptPluginsKey := "gptPlugins"
  const AzureOpenAIKey := "azureOpenAI"
  const BingAIKey := "bingAI"
  const ChatGPTBrowserKey := "chatGPTBrowser"
  const AssistantKey := "assistant"

  const CatalogKeys: set<string> :=
    {OpenAIKey, GoogleKey, AnthropicKey, GptPluginsKey, AzureOpenAIKey, BingAIKey, ChatGPTBrowserKey, AssistantKey}

  const BingAIModels: ModelList := ["BingAI", "Sydney"]
  const AssistantModels: ModelList := ["gpt-4-1106-preview", "gpt-3.5-turbo-1106"]

  /** The object literal the loader returns, from the six fetched lists in
      `Plan` order. */
  function Assemble(lists: seq<ModelList>): (catalog: map<string, ModelList>)
    requires |lists| == 6
  {
    map[ OpenAIKey := lists[1],
         GoogleKey := lists[0],
         AnthropicKey := lists[2],
         GptPluginsKey := lists[5],
         AzureOpenAIKey := lists[4],
         BingAIKey := BingAIModels,
         ChatGPTBrowserKey := lists[3],
         AssistantKey := AssistantModels ]
  }

  /** What one call of the loader does: the fetches it made, in order, and
      the catalog it resolves with or the error it rejects with. */
  datatype Load = Load(attempted: seq<Fetch>, catalog: Result<map<string, ModelList>>)

  /** `loadDefaultModels(req)` for a request whose user id is `user`. */
  function LoadDefaultModels(service: ModelService, config: EndpointConfig, user: string): (r: Load)
    ensures r.attempted <= Plan(user, config)
    ensures r.catalog.Ok? <==> forall f :: f in Plan(user, config) ==> Invoke(service, f).Ok?
    ensures r.catalog.Ok? ==>
              && r.attempted == Plan(user, config)
              && r.catalog.value.Keys == CatalogKeys
              && service.getOpenAIModels(OpenAIOptions(user, None, None)) == Ok(r.catalog.value[OpenAIKey])
              && service.getOpenAIModels(OpenAIOptions(user, Some(true), None)) == Ok(r.catalog.value[AzureOpenAIKey])
              && service.getOpenAIModels(OpenAIOptions(user, Some(config.useAzurePlugins), Some(true)))
                 == Ok(r.catalog.value[GptPluginsKey])
              && service.getGoogleModels() == Ok(r.catalog.value[GoogleKey])
              && service.getAnthropicModels() == Ok(r.catalog.value[AnthropicKey])
              && service.getChatGPTBrowserModels() == Ok(r.catalog.value[ChatGPTBrowserKey])
              && r.catalog.value[BingAIKey] == ["BingAI", "Sydney"]
              && r.catalog.value[AssistantKey] == ["gpt-4-1106-preview", "gpt-3.5-turbo-1106"]
    ensures r.catalog.Err? ==>
              && |r.attempted| > 0
              && Invoke(service, r.attempted[|r.attempted| - 1]) == Err(r.catalog.error)
              && forall i :: 0 <= i < |r.attempted| - 1 ==> Invoke(service, r.attempted[i]).Ok?
  {
    var plan := Plan(user, config);
    var run := RunInOrder(service, plan);
    match run.outcome
    case Err(e) => Load(run.attempted, Err(e))
    case Ok(lists) => Load(run.attempted, Ok(Assemble(lists)))
  }

  /** A fetch that throws makes the loader reject, and no fetch planned
      after it is made. */
  lemma FailedFetchStopsTheRest(service: ModelService, config: EndpointConfig, user: string, i: nat)
    requires i < 6 && Invoke(service, Plan(user, config)[i]).Err?
    ensures LoadDefaultModels(service, config, user).catalog.Err?
    ensures |LoadDefaultModels(service, config, user).attempted| <= i + 1
  {
    var plan := Plan(user, config);
    var r := LoadDefaultModels(service, config, user);
    assert plan[i] in plan;
  }

  /** The options of the `getOpenAIModels` calls among `fetches`, in order. */
  function OpenAICalls(fetches: seq<Fetch>): (calls: seq<OpenAIOptions>)
    ensures |calls| <= |fetches|
  {
    if fetches == [] then []
    else (if fetches[0].OpenAIFetch? then [fetches[0].options] else []) + OpenAICalls(fetches[1..])
  }

  lemma {:induction false} OpenAICallsOfPrefix(prefix: seq<Fetch>, fetches: seq<Fetch>)
    requires prefix <= fetches
    ensures OpenAICalls(prefix) <= OpenAICalls(fetches)
  {
    if prefix != [] {
      assert prefix[1..] <= fetches[1..];
      OpenAICallsOfPrefix(prefix[1..], fetches[1..]);
    }
  }

  /** The OpenAI-family calls happen in the order openAI, azureOpenAI,
      gptPlugins, each for the requesting user; a rejection cuts the list
      short. */
  lemma OpenAICallsInOrder(service: ModelService, config: EndpointConfig, user: string)
    ensures OpenAICalls(LoadDefaultModels(service, config, user).attempted)
            <= [OpenAIOptions(user, None, None),
                OpenAIOptions(user, Some(true), None),
                OpenAIOptions(user, Some(config.useAzurePlugins), Some(true))]
  {
    var plan := Plan(user, config);
    OpenAICallsOfPrefix(LoadDefaultModels(service, config, user).attempted, plan);
    OpenAICallsOfPlan(user, config);
  }

  lemma OpenAICallsCons(f: Fetch, rest: seq<Fetch>)
    ensures OpenAICalls([f] + rest) == (if f.OpenAIFetch? then [f.options] else []) + OpenAICalls(rest)
  {
    assert ([f] + rest)[1..] == rest;
  }

  /** The plan's `getOpenAIModels` calls are openAI, azureOpenAI and
      gptPlugins, in that order. */
  lemma OpenAICallsOfPlan(user: string, config: EndpointConfig)
    ensures OpenAICalls(Plan(user, config)) == [OpenAIPlain(user), AzureOpenAI(user), GptPlugins(user, config)]
  {
    var o, z, p := OpenAIFetch(OpenAIPlain(user)), OpenAIFetch(AzureOpenAI(user)), OpenAIFetch(GptPlugins(user, config));
    assert Plan(user, config) == [GoogleFetch] + ([o] + ([AnthropicFetch] + ([ChatGPTBrowserFetch] + ([z] + ([p] + [])))));
    OpenAICallsCons(p, []);
    OpenAICallsCons(z, [p]);
    OpenAICallsCons(ChatGPTBrowserFetch, [z, p]);
    assert [ChatGPTBrowserFetch] + [z, p] == [ChatGPTBrowserFetch, z, p];
    OpenAICallsCons(AnthropicFetch, [ChatGPTBrowserFetch, z, p]);
    assert [AnthropicFetch] + [ChatGPTBrowserFetch, z, p] == [AnthropicFetch, ChatGPTBrowserFetch, z, p];
    OpenAICallsCons(o, [AnthropicFetch, ChatGPTBrowserFetch, z, p]);
    assert [o] + [AnthropicFetch, ChatGPTBrowserFetch, z, p] == [o, AnthropicFetch, ChatGPTBrowserFetch, z, p];
    OpenAICallsCons(GoogleFetch, [o, AnthropicFetch, ChatGPTBrowserFetch, z, p]);
  }

  /** The google, anthropic, chatGPTBrowser, bingAI and assistant entries do
      not depend on the requesting user. */
  lemma UserIndependentEntries(service: ModelService, config: EndpointConfig, user1: string, user2: string)
    requires LoadDefaultModels(service, config, user1).catalog.Ok?
    requires LoadDefaultModels(service, config, user2).catalog.Ok?
    ensures var c1, c2 := LoadDefaultModels(service, config, user1).catalog.value,
                          LoadDefaultModels(service, config, user2).catalog.value;
            forall k :: k in {GoogleKey, AnthropicKey, ChatGPTBrowserKey, BingAIKey, AssistantKey} ==> c1[k] == c2[k]
  {
  }

  /** Every request served by one loaded module passes the same
      `useAzurePlugins` value to the gptPlugins fetch. */
  lemma PluginsFlagFixedPerProcess(config: EndpointConfig, user1: string, user2: string)
    ensures Plan(user1, config)[5].options.azure == Plan(user2, config)[5].options.azure
            == Some(config.useAzurePlugins)
  {
  }
}
