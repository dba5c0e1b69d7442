/** Chooses the lifecycle (buildpack or docker) of an app being created or
    updated. */
module AppLifecycleProvider {
  import opened Wrappers

  const BUILDPACK: string := "buildpack"
  const DOCKER: string := "docker"
  const DEFAULT_LIFECYCLE_TYPE: string := BUILDPACK

  datatype LifecycleClass = AppBuildpackLifecycle | AppDockerLifecycle

  const TYPE_TO_LIFECYCLE_CLASS_MAP: map<string, LifecycleClass> :=
    map[BUILDPACK := AppBuildpackLifecycle, DOCKER := AppDockerLifecycle]

  /** A create or update message: whether it carries a lifecycle, and its type. */
  datatype Message = Message(lifecycleRequested: bool, lifecycleType: string)

  datatype AppModel = AppModel(lifecycleType: string)

  /** A lifecycle object: its class, built from the message. */
  datatype Lifecycle = Lifecycle(lifecycleClass: LifecycleClass, message: Message)

  /** The chosen type has no entry in the table (`nil.new` fails). */
  datatype ProvideError = NoLifecycleClass(lifecycleType: string)

  /** The requested type, else the existing app's, else the default. */
  function LifecycleType(message: Message, app: Option<AppModel>): (t: string)
    ensures message.lifecycleRequested ==> t == message.lifecycleType
    ensures !message.lifecycleRequested && app.Some? ==> t == app.value.lifecycleType
    ensures !message.lifecycleRequested && app.None? ==> t == BUILDPACK
  {
    if message.lifecycleRequested then message.lifecycleType
    else if app.Some? then app.value.lifecycleType
    else DEFAULT_LIFECYCLE_TYPE
  }

  /** Only the two lifecycle types have a class, buildpack and docker. */
  lemma LifecycleTable(t: string)
    ensures t in TYPE_TO_LIFECYCLE_CLASS_MAP <==> t == BUILDPACK || t == DOCKER
    ensures t == BUILDPACK ==> TYPE_TO_LIFECYCLE_CLASS_MAP[t] == AppBuildpackLifecycle
    ensures t == DOCKER ==> TYPE_TO_LIFECYCLE_CLASS_MAP[t] == AppDockerLifecycle
  {
  }

  function Provide(message: Message, app: Option<AppModel>): (r: Result<Lifecycle, ProvideError>)
    ensures r.Success? <==> LifecycleType(message, app) in {BUILDPACK, DOCKER}
    ensures r.Success? ==> r.value.message == message
    ensures r.Success? ==>
      (r.value.lifecycleClass == AppBuildpackLifecycle <==> LifecycleType(message, app) == BUILDPACK)
    ensures r.Failure? ==> r.error == NoLifecycleClass(LifecycleType(message, app))
  {
    var t := LifecycleType(message, app);
    if t in TYPE_TO_LIFECYCLE_CLASS_MAP then Success(Lifecycle(TYPE_TO_LIFECYCLE_CLASS_MAP[t], message))
    else Failure(NoLifecycleClass(t))
  }

  /** On create there is no app: the message's type, or buildpack. */
  function ProvideForCreate(message: Message): (r: Result<Lifecycle, ProvideError>)
    ensures !message.lifecycleRequested ==> r == Success(Lifecycle(AppBuildpackLifecycle, message))
    ensures message.lifecycleRequested ==>
      (r.Success? <==> message.lifecycleType in {BUILDPACK, DOCKER})
  {
    Provide(message, None)
  }

  /** On update the message's type wins; otherwise the app keeps its own. */
  function ProvideForUpdate(message: Message, app: AppModel): (r: Result<Lifecycle, ProvideError>)
    ensures message.lifecycleRequested ==> r == ProvideForCreate(message)
    ensures !message.lifecycleRequested ==>
      (r.Success? <==> app.lifecycleType in {BUILDPACK, DOCKER})
      && (r.Success? ==> (r.value.lifecycleClass == AppDockerLifecycle <==> app.lifecycleType == DOCKER))
  {
    Provide(message, Some(app))
  }
}
