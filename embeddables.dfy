/** The widget binder: at most one SDK instance, bound to at most one user. */
module Embeddables {
  import opened Wrappers
  import SessionState

  /** The web font handed to the SDK on every initialisation. */
  const FontCssSrc: string := "https://fonts.googleapis.com/css2?family=Zen+Dots&display=swap"
  const ModalZIndex: string := "123456"
  const FontFamily: string := "calibri, sans-serif"

  /** The errors the binder throws. */
  datatype BinderError = NoActiveUser | SdkNotLoaded | UserChanged

  function Message(e: BinderError): string {
    match e
    case NoActiveUser => "No active user selected"
    case SdkNotLoaded => "EasyPostEmbeddables SDK not loaded yet"
    case UserChanged => "Active user changed; please re-initialize session"
  }

  /** The pages log `e.message`, so each error can be told apart from the
      log. */
  lemma MessagesDistinct(e1: BinderError, e2: BinderError)
    ensures Message(e1) == Message(e2) <==> e1 == e2
  {
    assert |Message(NoActiveUser)| == 23;
    assert |Message(SdkNotLoaded)| == 38;
    assert |Message(UserChanged)| == 49;
  }

  datatype Appearance = Appearance(tokens: map<string, string>, modalZIndex: string)

  /** The appearance descriptor for the current theme flag. */
  function GetAppearance(dark: bool): (a: Appearance)
    ensures a.modalZIndex == ModalZIndex
    ensures "font.family" in a.tokens && a.tokens["font.family"] == FontFamily
    ensures "color.neutral.000" in a.tokens
    ensures a.tokens["color.neutral.000"] == (if dark then "#1f2937" else "#ffffff")
    ensures "color.neutral.900" in a.tokens <==> dark
  {
    Appearance(
      if dark then
        map["font.family" := FontFamily, "color.neutral.000" := "#1f2937", "color.neutral.900" := "#ffffff"]
      else
        map["font.family" := FontFamily, "color.neutral.000" := "#ffffff"],
      ModalZIndex)
  }

  /** The two themes agree on everything but their colour tokens: the dark
      one has one extra key, `color.neutral.900`, and the only shared key
      whose value differs is `color.neutral.000`. */
  lemma ThemesDifferOnlyInColours()
    ensures GetAppearance(true).modalZIndex == GetAppearance(false).modalZIndex
    ensures GetAppearance(false).tokens.Keys <= GetAppearance(true).tokens.Keys
    ensures GetAppearance(true).tokens.Keys - GetAppearance(false).tokens.Keys == {"color.neutral.900"}
    ensures forall k :: k in GetAppearance(false).tokens && k != "color.neutral.000" ==>
      GetAppearance(true).tokens[k] == GetAppearance(false).tokens[k]
    ensures GetAppearance(true).tokens["color.neutral.000"] != GetAppearance(false).tokens["color.neutral.000"]
  {
  }

  /** The options object passed to the SDK's `init` (the session-fetch
      callback is not part of this model). */
  datatype InitOptions = InitOptions(fonts: seq<string>, appearance: Appearance)

  function Options(dark: bool): InitOptions {
    InitOptions([FontCssSrc], GetAppearance(dark))
  }

  /** One call into the SDK, on the SDK itself or on an instance it made. */
  datatype SdkCall =
    | InitCall(inst: Instance, options: InitOptions)
    | OpenCall(inst: Instance, component: string)
    | DestroyCall(inst: Instance)
    | UpdateCall(inst: Instance, appearance: Appearance)

  /** The third-party SDK global. `loaded` says whether its `init` is there;
      the other flags describe the instances it hands out. Every call made
      into it is recorded in `calls`. */
  class Sdk {
    const loaded: bool
    const instancesDestroy: bool
    const destroyThrows: bool
    const instancesUpdate: bool
    ghost var calls: seq<SdkCall>

    constructor (loaded: bool, instancesDestroy: bool, destroyThrows: bool, instancesUpdate: bool)
      ensures this.loaded == loaded && this.instancesDestroy == instancesDestroy
      ensures this.destroyThrows == destroyThrows && this.instancesUpdate == instancesUpdate
      ensures calls == []
    {
      this.loaded := loaded;
      this.instancesDestroy := instancesDestroy;
      this.destroyThrows := destroyThrows;
      this.instancesUpdate := instancesUpdate;
      calls := [];
    }

    method Init(options: InitOptions) returns (inst: Instance)
      requires loaded
      modifies this
      ensures fresh(inst) && inst.sdk == this
      ensures calls == old(calls) + [InitCall(inst, options)]
    {
      inst := new Instance(this, instancesDestroy, destroyThrows, instancesUpdate);
      calls := calls + [InitCall(inst, options)];
    }
  }

  /** An instance returned by the SDK's `init`. `destroy` and `update` may be
      missing, and `destroy` may throw. */
  class Instance {
    const sdk: Sdk
    const hasDestroy: bool
    const destroyThrows: bool
    const hasUpdate: bool

    constructor (sdk: Sdk, hasDestroy: bool, destroyThrows: bool, hasUpdate: bool)
      ensures this.sdk == sdk && this.hasDestroy == hasDestroy
      ensures this.destroyThrows == destroyThrows && this.hasUpdate == hasUpdate
    {
      this.sdk := sdk;
      this.hasDestroy := hasDestroy;
      this.destroyThrows := destroyThrows;
      this.hasUpdate := hasUpdate;
    }

    method Open(component: string)
      modifies sdk
      ensures sdk.calls == old(sdk.calls) + [OpenCall(this, component)]
    {
      sdk.calls := sdk.calls + [OpenCall(this, component)];
    }

    /** The call is made (and recorded) whether or not it then throws. */
    method Destroy() returns (threw: bool)
      requires hasDestroy
      modifies sdk
      ensures threw == destroyThrows
      ensures sdk.calls == old(sdk.calls) + [DestroyCall(this)]
    {
      sdk.calls := sdk.calls + [DestroyCall(this)];
      threw := destroyThrows;
    }

    method Update(appearance: Appearance)
      requires hasUpdate
      modifies sdk
      ensures sdk.calls == old(sdk.calls) + [UpdateCall(this, appearance)]
    {
      sdk.calls := sdk.calls + [UpdateCall(this, appearance)];
    }
  }

  /** What `initEmbeddables` does, decided from the active user, whether the
      SDK is loaded, whether an instance exists and the user it is bound to. */
  datatype InitStep = Reject(error: BinderError) | Reuse | Create(destroyFirst: bool)

  function InitDecision(active: string, loaded: bool, hasInstance: bool, bound: string): (d: InitStep)
    ensures d == Reject(NoActiveUser) <==> active == ""
    ensures d == Reject(SdkNotLoaded) <==> active != "" && !loaded
    ensures d != Reject(UserChanged)
    ensures d == Reuse <==> active != "" && loaded && hasInstance && bound == active
    ensures d == Create(true) <==> active != "" && loaded && hasInstance && bound != "" && bound != active
  {
    if active == "" then Reject(NoActiveUser)
    else if !loaded then Reject(SdkNotLoaded)
    else if hasInstance && bound != "" && bound != active then Create(true)
    else if hasInstance && bound == active then Reuse
    else Create(false)
  }

  /** Whether an instance exists after `initEmbeddables`, and the user it is
      bound to. */
  function StateAfterInit(active: string, loaded: bool, hasInstance: bool, bound: string): (bool, string) {
    if InitDecision(active, loaded, hasInstance, bound).Reject? then (hasInstance, bound) else (true, active)
  }

  /** Initialising twice in a row: the second call reuses the instance. */
  lemma InitIdempotent(active: string, loaded: bool, hasInstance: bool, bound: string)
    requires !InitDecision(active, loaded, hasInstance, bound).Reject?
    ensures var (has', bound') := StateAfterInit(active, loaded, hasInstance, bound);
      InitDecision(active, loaded, has', bound') == Reuse
      && StateAfterInit(active, loaded, has', bound') == (has', bound')
  {
  }

  /** The decision `openComponent` makes: the user check, the initialisation,
      then the check that the binding matches the active user. */
  function OpenDecision(active: string, loaded: bool, hasInstance: bool, bound: string): (r: Outcome<BinderError>)
    ensures r == Pass <==> active != "" && loaded
    ensures active == "" ==> r == Fail(NoActiveUser)
    ensures active != "" && !loaded ==> r == Fail(SdkNotLoaded)
  {
    if active == "" then Fail(NoActiveUser)
    else match InitDecision(active, loaded, hasInstance, bound)
      case Reject(e) => Fail(e)
      case _ =>
        var (_, bound') := StateAfterInit(active, loaded, hasInstance, bound);
        if bound' != active then Fail(UserChanged) else Pass
  }

  /** In a sequential run the user-changed guard never fires: a successful
      initialisation binds the active user. */
  lemma OpenNeverReportsUserChanged(active: string, loaded: bool, hasInstance: bool, bound: string)
    ensures OpenDecision(active, loaded, hasInstance, bound) != Fail(UserChanged)
  {
  }

  /** The SDK calls made by tearing down `inst`, if it exists and has a
      `destroy`. */
  function DestroyCalls(inst: Instance?): seq<SdkCall> {
    if inst != null && inst.hasDestroy then [DestroyCall(inst)] else []
  }

  /** The SDK calls an initialisation makes, given its decision, the instance
      it found and the instance it created. */
  function SetupCalls(d: InitStep, previous: Instance?, created: Instance, options: InitOptions): seq<SdkCall> {
    match d
    case Create(destroyFirst) => (if destroyFirst then DestroyCalls(previous) else []) + [InitCall(created, options)]
    case _ => []
  }

  /** The module-level pair `embeddables` / `boundUserId`. */
  class Binder {
    var embeddables: Instance?
    var boundUserId: string
    const sdk: Sdk
    const store: SessionState.Store

    /** An instance exists exactly when a user is bound, and it came from
        this SDK. */
    ghost predicate Valid()
      reads this
    {
      && (embeddables == null <==> boundUserId == "")
      && (embeddables != null ==> embeddables.sdk == sdk)
    }

    constructor (sdk: Sdk, store: SessionState.Store)
      ensures this.sdk == sdk && this.store == store
      ensures embeddables == null && boundUserId == ""
      ensures Valid()
    {
      this.sdk := sdk;
      this.store := store;
      embeddables := null;
      boundUserId := "";
    }

    /** Ready exactly when a user is bound. */
    function IsReady(): (ready: bool)
      reads this
      ensures Valid() ==> (ready <==> boundUserId != "")
      ensures ready ==> embeddables != null
    {
      embeddables != null
    }

    /** The bound user, empty exactly when the binder is not ready. */
    function GetBoundUserId(): (id: string)
      reads this
      ensures Valid() ==> (id == "" <==> !IsReady())
      ensures Valid() && id != "" ==> embeddables != null && embeddables.sdk == sdk
    {
      boundUserId
    }

    method InitEmbeddables() returns (r: Result<Instance, BinderError>)
      requires Valid()
      modifies this, sdk
      ensures Valid()
      ensures var d := InitDecision(store.state.activeUserId, sdk.loaded, old(embeddables) != null, old(boundUserId));
        match d
        case Reject(e) =>
          && r == Failure(e)
          && embeddables == old(embeddables) && boundUserId == old(boundUserId)
          && sdk.calls == old(sdk.calls)
        case Reuse =>
          && r.Success? && r.value == old(embeddables)
          && embeddables == old(embeddables) && boundUserId == old(boundUserId)
          && sdk.calls == old(sdk.calls)
        case Create(_) =>
          && r.Success? && fresh(r.value) && embeddables == r.value
          && boundUserId == store.state.activeUserId
          && sdk.calls == old(sdk.calls) + SetupCalls(d, old(embeddables), r.value, Options(store.state.dark))
    {
      var active := store.state.activeUserId;
      if active == "" {
        return Failure(NoActiveUser);
      }
      if !sdk.loaded {
        return Failure(SdkNotLoaded);
      }
      if embeddables != null && boundUserId != "" && boundUserId != active {
        DestroyEmbeddables();
      }
      if embeddables != null && boundUserId == active {
        return Success(embeddables);
      }
      var inst := sdk.Init(Options(store.state.dark));
      embeddables := inst;
      boundUserId := active;
      return Success(inst);
    }

    method UpdateTheme()
      requires Valid()
      modifies sdk
      ensures sdk.calls == old(sdk.calls) +
        if embeddables != null && embeddables.hasUpdate
        then [UpdateCall(embeddables, GetAppearance(store.state.dark))] else []
    {
      if embeddables == null || !embeddables.hasUpdate {
        return;
      }
      embeddables.Update(GetAppearance(store.state.dark));
    }

    /** Best-effort teardown: an error from the SDK's `destroy` is swallowed
        and the binder is reset regardless. */
    method DestroyEmbeddables()
      requires Valid()
      modifies this, sdk
      ensures Valid() && !IsReady()
      ensures embeddables == null && boundUserId == ""
      ensures sdk.calls == old(sdk.calls) + DestroyCalls(old(embeddables))
    {
      if embeddables != null && embeddables.hasDestroy {
        var threw := embeddables.Destroy();
      }
      embeddables := null;
      boundUserId := "";
    }

    method OpenComponent(component: string) returns (r: Outcome<BinderError>)
      requires Valid()
      modifies this, sdk
      ensures Valid()
      ensures r == OpenDecision(store.state.activeUserId, sdk.loaded, old(embeddables) != null, old(boundUserId))
      ensures r.Fail? ==>
        && embeddables == old(embeddables) && boundUserId == old(boundUserId)
        && sdk.calls == old(sdk.calls)
      ensures r.Pass? ==>
        && embeddables != null && boundUserId == store.state.activeUserId
        && (InitDecision(store.state.activeUserId, sdk.loaded, old(embeddables) != null, old(boundUserId)) == Reuse ==>
              embeddables == old(embeddables))
        && sdk.calls == old(sdk.calls)
             + SetupCalls(InitDecision(store.state.activeUserId, sdk.loaded, old(embeddables) != null, old(boundUserId)),
                          old(embeddables), embeddables, Options(store.state.dark))
             + [OpenCall(embeddables, component)]
    {
      var active := store.state.activeUserId;
      if active == "" {
        return Fail(NoActiveUser);
      }
      var init := InitEmbeddables();
      if init.Failure? {
        return Fail(init.error);
      }
      if boundUserId != active {
        return Fail(UserChanged);
      }
      embeddables.Open(component);
      r := Pass;
    }
  }

  /** Initialising twice is the same as initialising once: the second call
      returns the same instance, and the SDK sees only the calls the first one
      made. */
  method InitTwice(b: Binder) returns (first: Result<Instance, BinderError>, second: Result<Instance, BinderError>)
    requires b.Valid()
    modifies b, b.sdk
    ensures first.Success? ==> second == first && b.embeddables == first.value
    ensures first.Success? ==> b.boundUserId == b.store.state.activeUserId
    ensures first.Success? ==>
      b.sdk.calls == old(b.sdk.calls)
        + SetupCalls(InitDecision(b.store.state.activeUserId, b.sdk.loaded, old(b.embeddables) != null, old(b.boundUserId)),
                     old(b.embeddables), first.value, Options(b.store.state.dark))
  {
    first := b.InitEmbeddables();
    second := b.InitEmbeddables();
  }
}
