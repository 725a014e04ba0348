/** loadModel: probe the cache for a configuration and an artifact, then
    either rebuild the model from the cache (Hit) or load the default model,
    fetch its artifact and write both back (Miss); end Ready or Failed. */
module ModelLoader {
  import opened JsValues
  import opened CacheStore
  import opened MediaFetch

  /** Cache keys of the configuration and of the artifact; both live in "models". */
  const CONFIG_KEY: string := "cocoSsdConfig"
  const ARTIFACT_KEY: string := "ssdlite_mobilenet_v2"

  /** Fallbacks when the loaded model declares no URL or path. */
  const DEFAULT_CONFIG: string := "lite_mobilenet_v2"
  const DEFAULT_ARTIFACT_URL: string := "https://storage.googleapis.com/tfjs-models/savedmodel/ssdlite_mobilenet_v2/model.json"

  /** The model object the default provider returns, seen only through the
      two properties the loader reads. */
  datatype ModelHandle = ModelHandle(modelUrl: Option<string>, path: Option<string>)

  /** How `cocoSsd.load()` settles. */
  datatype ProviderOutcome = Loaded(handle: ModelHandle) | ProviderRejected

  /** Everything outside the loader that decides its run: how each of the
      four store calls goes, how the provider and `tf.loadGraphModel` settle,
      and the network's answer to the artifact fetch. */
  datatype Environment = Environment(
    configRead: StoreFault,
    artifactRead: StoreFault,
    configWrite: StoreFault,
    artifactWrite: StoreFault,
    provider: ProviderOutcome,
    graphLoads: bool,
    network: Response)

  /** Loading: loader shown, camera button hidden. Ready: loader hidden,
      camera button shown. Failed: the alert asking for a page refresh. */
  datatype Phase = Loading | Ready | Failed

  /** Which branch the probe took; NoBranch when a cache read rejected. */
  datatype Branch = NoBranch | Hit | Miss

  /** The effect of one loadModel run: the phase reached, the module-level
      `model`, the "models" store, the branch taken and the URL fetched. */
  datatype Outcome = Outcome(phase: Phase, model: Option<ModelHandle>, models: Models, branch: Branch, fetched: Option<string>)

  /** The hit test on the two cached values. */
  predicate IsCacheHit(cachedConfig: Value, cachedArtifact: Value) {
    Truthy(cachedConfig) && Truthy(cachedArtifact)
  }

  /** `model.modelUrl || "lite_mobilenet_v2"`. */
  function ConfigOf(h: ModelHandle): string {
    OrElse(h.modelUrl, DEFAULT_CONFIG)
  }

  /** `model.path || <default artifact URL>`. */
  function ArtifactUrlOf(h: ModelHandle): string {
    OrElse(h.path, DEFAULT_ARTIFACT_URL)
  }

  /** One run of loadModel from the store `models` and the module-level
      `model`, as a state machine: Probe, then Hit or Miss, then Ready or
      Failed. */
  function Run(models: Models, model: Option<ModelHandle>, env: Environment): (r: Outcome)
    ensures r.phase == Ready || r.phase == Failed
    ensures r.branch == Hit <==>
      env.configRead == NoFault && env.artifactRead == NoFault
      && Truthy(Fresh(models, CONFIG_KEY)) && Truthy(Fresh(models, ARTIFACT_KEY))
    ensures r.branch == NoBranch <==> env.configRead != NoFault || env.artifactRead != NoFault
    ensures r.branch != Miss ==> r.models == models && r.model == model && r.fetched == None
    ensures r.phase == Ready <==>
      || (r.branch == Hit && env.graphLoads)
      || (r.branch == Miss && env.provider.Loaded? && env.configWrite == NoFault && env.artifactWrite == NoFault)
    ensures r.branch == Miss && env.provider.Loaded? ==> r.model == Some(env.provider.handle)
    ensures r.branch == Miss && env.provider.Loaded? && env.configWrite == NoFault ==>
      && r.fetched == Some(ArtifactUrlOf(env.provider.handle))
      && Fresh(r.models, CONFIG_KEY) == Str(ConfigOf(env.provider.handle))
    ensures r.phase == Ready && r.branch == Miss ==> Fresh(r.models, ARTIFACT_KEY) == AsValue(FetchMedia(env.network))
    ensures r.branch == Miss && env.provider.ProviderRejected? ==>
      r.models == models && r.model == model && r.fetched == None
    ensures r.branch == Miss && env.provider.Loaded? && env.configWrite != NoFault ==>
      r.models == models && r.fetched == None
    ensures r.branch == Miss && env.provider.Loaded? && env.configWrite == NoFault && env.artifactWrite != NoFault ==>
      r.models == Stamp(models, CONFIG_KEY, Str(ConfigOf(env.provider.handle)))
    ensures forall k :: k != CONFIG_KEY && k != ARTIFACT_KEY ==> (k in r.models <==> k in models)
    ensures forall k :: k in models && k != CONFIG_KEY && k != ARTIFACT_KEY ==> r.models[k] == models[k]
  {
    if env.configRead != NoFault || env.artifactRead != NoFault then
      Outcome(Failed, model, models, NoBranch, None)
    else if IsCacheHit(Fresh(models, CONFIG_KEY), Fresh(models, ARTIFACT_KEY)) then
      // the model rebuilt from the cache is bound to a local and dropped
      Outcome(if env.graphLoads then Ready else Failed, model, models, Hit, None)
    else
      match env.provider
      case ProviderRejected => Outcome(Failed, model, models, Miss, None)
      case Loaded(h) =>
        if env.configWrite != NoFault then Outcome(Failed, Some(h), models, Miss, None)
        else
          var withConfig := Stamp(models, CONFIG_KEY, Str(ConfigOf(h)));
          var url := ArtifactUrlOf(h);
          var modelData := AsValue(FetchMedia(env.network));
          if env.artifactWrite != NoFault then Outcome(Failed, Some(h), withConfig, Miss, Some(url))
          else Outcome(Ready, Some(h), Stamp(withConfig, ARTIFACT_KEY, modelData), Miss, Some(url))
  }

  /** An environment in which every store call succeeds. */
  predicate StoreHealthy(env: Environment) {
    && env.configRead == NoFault && env.artifactRead == NoFault
    && env.configWrite == NoFault && env.artifactWrite == NoFault
  }

  /** The page session: the cache store and the module-level state loadModel writes. */
  class App {
    const store: Store
    var model: Option<ModelHandle>
    var phase: Phase

    ghost predicate Valid()
      reads this, store
    {
      store.Valid()
    }

    /** Page start: `let model;` is undefined and the loader is showing. */
    constructor(store: Store)
      requires store.Valid()
      ensures Valid() && this.store == store && model == None && phase == Loading
    {
      this.store := store;
      model := None;
      phase := Loading;
    }

    /** loadModel: every rejection inside the try block ends in Failed. */
    method LoadModel(env: Environment) returns (branch: Branch, fetched: Option<string>)
      requires Valid()
      modifies this, store
      ensures Valid()
      ensures var o := Run(old(store.models), old(model), env);
        && phase == o.phase && model == o.model && store.models == o.models
        && branch == o.branch && fetched == o.fetched
      ensures store.files == old(store.files)
    {
      branch, fetched := NoBranch, None;
      var cachedConfig := store.Load(CONFIG_KEY, env.configRead);
      if cachedConfig.Err? {
        phase := Failed;
        return;
      }
      var cachedArtifact := store.Load(ARTIFACT_KEY, env.artifactRead);
      if cachedArtifact.Err? {
        phase := Failed;
        return;
      }
      if IsCacheHit(cachedConfig.value, cachedArtifact.value) {
        branch := Hit;
        // tf.loadGraphModel(...) resolves into a local; `model` is not assigned
        if !env.graphLoads {
          phase := Failed;
          return;
        }
      } else {
        branch := Miss;
        if env.provider.ProviderRejected? {
          phase := Failed;
          return;
        }
        var h := env.provider.handle;
        model := Some(h);
        var saved := store.Save(CONFIG_KEY, Str(ConfigOf(h)), env.configWrite);
        if saved.Err? {
          phase := Failed;
          return;
        }
        var modelFile := ArtifactUrlOf(h);
        fetched := Some(modelFile);
        var modelData := FetchMedia(env.network);
        saved := store.Save(ARTIFACT_KEY, AsValue(modelData), env.artifactWrite);
        if saved.Err? {
          phase := Failed;
          return;
        }
      }
      phase := Ready;
    }
  }

  /** The configuration the Miss path saves is never falsy, so it never by
      itself sends a later run down the Miss branch. */
  lemma ConfigAlwaysTruthy(h: ModelHandle)
    ensures Truthy(Str(ConfigOf(h)))
  {
  }

  /** Miss then hit: a run that reached Ready through Miss with a fetched
      artifact makes the next run with healthy reads take Hit, without a
      fetch and without touching the store. */
  lemma MissThenHit(models: Models, model: Option<ModelHandle>, first: Environment, second: Environment)
    requires Run(models, model, first).phase == Ready && Run(models, model, first).branch == Miss
    requires FetchMedia(first.network).Some?
    requires second.configRead == NoFault && second.artifactRead == NoFault
    ensures var r1 := Run(models, model, first);
      var r2 := Run(r1.models, r1.model, second);
      r2.branch == Hit && r2.fetched == None && r2.models == r1.models
  {
  }

  /** A Miss whose fetch came back null stores null under the artifact key,
      so the next run with healthy reads takes the Miss branch again. */
  lemma NullFetchMissesAgain(models: Models, model: Option<ModelHandle>, first: Environment, second: Environment)
    requires Run(models, model, first).phase == Ready && Run(models, model, first).branch == Miss
    requires FetchMedia(first.network).None?
    requires second.configRead == NoFault && second.artifactRead == NoFault
    ensures var r1 := Run(models, model, first);
      Run(r1.models, r1.model, second).branch == Miss
  {
  }

  /** A soft fetch failure (404) does not fail the session. */
  lemma NotFoundStillReady(models: Models, model: Option<ModelHandle>, env: Environment)
    requires StoreHealthy(env) && env.provider.Loaded?
    requires !IsCacheHit(Fresh(models, CONFIG_KEY), Fresh(models, ARTIFACT_KEY))
    requires env.network.Response? && env.network.status == 404
    ensures Run(models, model, env).phase == Ready
    ensures Fresh(Run(models, model, env).models, ARTIFACT_KEY) == Null
  {
  }

  /** A cache written under another version tag is ignored: the run misses. */
  lemma StaleCacheMisses(models: Models, model: Option<ModelHandle>, env: Environment)
    requires CONFIG_KEY in models && models[CONFIG_KEY].version != MODEL_VERSION
    ensures Run(models, model, env).branch != Hit
  {
  }

  /** The Hit path leaves `model` as it was: in a fresh session it stays
      undefined even though the run reaches Ready. */
  lemma HitLeavesModelUnassigned(models: Models, env: Environment)
    requires Run(models, None, env).branch == Hit && env.graphLoads
    ensures Run(models, None, env).phase == Ready && Run(models, None, env).model == None
  {
  }

  /** Two page sessions against one empty store, all calls succeeding and
      the artifact fetched: both reach Ready, the first misses and fetches
      the artifact URL, the second hits without any fetch, and the
      configuration saved by the first reads back as the model's URL or
      "lite_mobilenet_v2". */
  method TwoSessions(h: ModelHandle, bytes: seq<bv8>, contentType: Option<string>)
    returns (first: Branch, firstPhase: Phase, firstFetch: Option<string>,
             second: Branch, secondPhase: Phase, secondFetch: Option<string>, config: Result<Value>)
    ensures first == Miss && firstPhase == Ready && firstFetch == Some(ArtifactUrlOf(h))
    ensures second == Hit && secondPhase == Ready && secondFetch == None
    ensures config == Ok(Str(ConfigOf(h)))
    ensures h.modelUrl == None ==> config == Ok(Str("lite_mobilenet_v2"))
  {
    var store := new Store();
    var env := Environment(NoFault, NoFault, NoFault, NoFault, Loaded(h), true, Response(200, Some(bytes), contentType));
    var app := new App(store);
    first, firstFetch := app.LoadModel(env);
    firstPhase := app.phase;
    var app2 := new App(store);
    second, secondFetch := app2.LoadModel(env);
    secondPhase := app2.phase;
    config := store.Load(CONFIG_KEY, NoFault);
  }

  /** Two page sessions against one empty store where the artifact URL
      answers 404: both reach Ready, and both take the Miss branch. */
  method TwoSessionsNotFound(h: ModelHandle)
    returns (first: Branch, firstPhase: Phase, second: Branch, secondPhase: Phase)
    ensures first == Miss && firstPhase == Ready
    ensures second == Miss && secondPhase == Ready
  {
    var store := new Store();
    var env := Environment(NoFault, NoFault, NoFault, NoFault, Loaded(h), true, Response(404, None, None));
    var app := new App(store);
    var fetched;
    first, fetched := app.LoadModel(env);
    firstPhase := app.phase;
    var app2 := new App(store);
    second, fetched := app2.LoadModel(env);
    secondPhase := app2.phase;
  }
}
