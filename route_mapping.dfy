/** A route mapping binds an app to a route on one of the app's ports. Its
    validation checks the `app_port` and its save hook fills it in. */
module Runtime {
  import opened Wrappers

  /** The mapped app, as far as the port rules see it. */
  datatype App = App(diego: bool, ports: seq<int>)

  datatype Attribute = AppPort

  datatype ErrorKind = DiegoOnly | NotBoundToApp

  /** One entry of the record's validation errors. */
  datatype FieldError = FieldError(attribute: Attribute, kind: ErrorKind)

  /** The error validation reports on `app_port`, if any: a port on a non-diego
      app, or a port a diego app does not expose. */
  function AppPortError(appPort: Option<int>, app: App): (e: Option<ErrorKind>)
    ensures e == Some(DiegoOnly) <==> appPort.Some? && !app.diego
    ensures e == Some(NotBoundToApp) <==> app.diego && appPort.Some? && appPort.value !in app.ports
    ensures e.None? <==> appPort.None? || (app.diego && appPort.value in app.ports)
  {
    if appPort.Some? && !app.diego then Some(DiegoOnly)
    else if app.diego && appPort.Some? && appPort.value !in app.ports then Some(NotBoundToApp)
    else None
  }

  /** The errors validation appends: at most one, always on `app_port`. */
  function AppPortErrors(appPort: Option<int>, app: App): (errors: seq<FieldError>)
    ensures |errors| <= 1
    ensures errors == [] <==> AppPortError(appPort, app).None?
    ensures forall i :: 0 <= i < |errors| ==>
      errors[i] == FieldError(AppPort, AppPortError(appPort, app).value)
  {
    match AppPortError(appPort, app)
    case None => []
    case Some(kind) => [FieldError(AppPort, kind)]
  }

  /** The port before_save leaves: an unset port on a diego app becomes the
      app's first port (still unset if the app has none). */
  function DefaultAppPort(appPort: Option<int>, app: App): (port: Option<int>)
    ensures appPort.Some? || !app.diego ==> port == appPort
    ensures appPort.None? && app.diego && |app.ports| > 0 ==> port == Some(app.ports[0])
    ensures appPort.None? && app.diego && app.ports == [] ==> port.None?
    ensures port.Some? ==> port == appPort || port.value in app.ports
  {
    if appPort.None? && app.diego then
      (if |app.ports| > 0 then Some(app.ports[0]) else None)
    else appPort
  }

  /** Filling in the port never makes a mapping invalid, and a mapping that
      validates keeps validating. */
  lemma DefaultPortKeepsValidity(appPort: Option<int>, app: App)
    ensures AppPortError(DefaultAppPort(appPort, app), app) == AppPortError(appPort, app)
  {
  }

  /** Defaulting twice is defaulting once. */
  lemma DefaultPortIdempotent(appPort: Option<int>, app: App)
    ensures DefaultAppPort(DefaultAppPort(appPort, app), app) == DefaultAppPort(appPort, app)
  {
  }

  class RouteMapping {
    var app: App
    var appPort: Option<int>
    var errors: seq<FieldError>

    constructor (app: App, appPort: Option<int>)
      ensures this.app == app && this.appPort == appPort && errors == []
    {
      this.app := app;
      this.appPort := appPort;
      errors := [];
    }

    /** `validate`: appends the app_port error, if any, to `errors`. */
    method Validate()
      modifies this`errors
      ensures errors == old(errors) + AppPortErrors(appPort, app)
      ensures |errors| <= |old(errors)| + 1
    {
      if appPort.Some? && !app.diego {
        errors := errors + [FieldError(AppPort, DiegoOnly)];
      } else if app.diego && appPort.Some? && appPort.value !in app.ports {
        errors := errors + [FieldError(AppPort, NotBoundToApp)];
      }
    }

    /** `before_save`: defaults an unset port on a diego app. */
    method BeforeSave()
      modifies this`appPort
      ensures appPort == DefaultAppPort(old(appPort), app)
      ensures old(appPort).Some? ==> appPort == old(appPort)
      ensures !app.diego ==> appPort == old(appPort)
    {
      if appPort.None? && app.diego {
        if |app.ports| > 0 {
          appPort := Some(app.ports[0]);
        }
      }
    }
  }
}
