# Blobstore access layer of the Cloud Controller, modelled in Dafny

This project models the part of the Cloud Controller that reaches stored
artifacts (packages, droplets, buildpacks and buildpack caches). It also
models three small decision rules that sit next to it.

- **Internal URL generator** (`UrlGenerator`). Six of its seven methods
  derive a blob key from an app, package, buildpack or droplet. Each looks
  that key up in one of four artifact blobstores (package, buildpack cache,
  admin buildpack, droplet). It returns that blob's internal download URL, or
  nil (`None`) when there is no blob. The v2 droplet method derives no key and
  reads none of the four stores. It follows the app to its current droplet and
  then to that droplet's own blob. No current droplet gives nil, and a droplet
  without a blob gives nil. The v3 buildpack-cache key
  `"{app_guid}/{stack}"` is proved to be reversible, and so injective, when
  the app guid holds no `/`.
- **Blobstores** (`Blobstore`). A blobstore client is seen from outside as a
  directory key, its `local?` flag and a partial map from key to blob. A blob
  has an internal URL, a public URL and a local path. `blob(key)` gives nil for
  a missing key and never fails.
- **Client provider** (`ClientProvider`), as its tests describe it. An unset
  type or `fog` gives a fog client. It is a key error when `fog_connection` is
  missing. A `cdn` option makes the fog client be built with a `Cdn`. `webdav`
  gives a Dav client. The selected backend is exposed as `wrappedClient`.
- **Package download** (`PackageDownload`), as its tests describe it. The
  action returns `(local_path, nil)` when the package blobstore is local and
  `(nil, public_download_url)` otherwise, never both.
- **App lifecycle provider** (`AppLifecycleProvider`). The lifecycle type is
  the one the message requests, else the existing app's, else `buildpack`. The
  type is then mapped through the two-entry table to a lifecycle class.
- **Route mapping** (`Runtime.RouteMapping`). This is a class with an
  `appPort` field and an `errors` sequence. `Validate` appends at most one
  `app_port` error: `diego_only` or `not_bound_to_app`. `BeforeSave` fills an
  unset port on a diego app with the app's first port.

Verify every .dfy file in one `dafny verify` call. There is no `include`;
each module imports the ones it uses.

Two pairs of types are kept apart on purpose:
- `ClientProvider.Client` describes how the provider builds a client.
  `Blobstore.Store` describes what a built client holds.
- `UrlGenerator.App` and `Runtime.App` both stand for the app record. Each
  keeps only the fields its own rules read: guid, cache key and droplet for
  the URL generator, diego flag and ports for route mappings.

## Model

| member | source | states |
|---|---|---|
| Blobstore.Store.Lookup | lib/cloud_controller/blobstore/url_generator/internal_url_generator.rb:18-19 | a blobstore gives the stored blob for a key that has one and nil, never an error, for any other key |
| UrlGenerator.InternalUrlGenerator.AppPackageDownloadUrl | lib/cloud_controller/blobstore/url_generator/internal_url_generator.rb:17-22 | nil exactly when the package blobstore has no blob under `app.guid`; otherwise that blob's internal download URL |
| UrlGenerator.InternalUrlGenerator.PackageDownloadUrl | lib/cloud_controller/blobstore/url_generator/internal_url_generator.rb:24-29 | nil exactly when the package blobstore has no blob under `package.guid`; otherwise that blob's internal download URL |
| UrlGenerator.InternalUrlGenerator.BuildpackCacheDownloadUrl | lib/cloud_controller/blobstore/url_generator/internal_url_generator.rb:31-36 | nil exactly when the buildpack-cache blobstore has no blob under `app.buildpack_cache_key`; otherwise its internal download URL |
| UrlGenerator.InternalUrlGenerator.V3AppBuildpackCacheDownloadUrl | lib/cloud_controller/blobstore/url_generator/internal_url_generator.rb:38-43 | nil exactly when the buildpack-cache blobstore has no blob under `app_guid + "/" + stack`; otherwise its internal download URL |
| UrlGenerator.InternalUrlGenerator.AdminBuildpackDownloadUrl | lib/cloud_controller/blobstore/url_generator/internal_url_generator.rb:45-50 | nil exactly when the admin-buildpack blobstore has no blob under `buildpack.key`; otherwise its internal download URL |
| UrlGenerator.InternalUrlGenerator.DropletDownloadUrl | lib/cloud_controller/blobstore/url_generator/internal_url_generator.rb:52-57 | nil when the app has no current droplet; otherwise nil exactly when that droplet has no blob, else the droplet's own blob's internal download URL |
| UrlGenerator.InternalUrlGenerator.V3DropletDownloadUrl | lib/cloud_controller/blobstore/url_generator/internal_url_generator.rb:59-64 | nil exactly when the droplet blobstore has no blob under `droplet.blobstore_key`; otherwise its internal download URL |
| UrlGenerator.InternalUrlOf | lib/cloud_controller/blobstore/url_generator/internal_url_generator.rb:19-21 | nil exactly when there is no blob; otherwise that blob's internal download URL |
| UrlGenerator.V3BuildpackCacheKey | lib/cloud_controller/blobstore/url_generator/internal_url_generator.rb:39 | the v3 cache key is the app guid, one `/`, then the stack, in that layout |
| UrlGenerator.FirstSlash | lib/cloud_controller/blobstore/url_generator/internal_url_generator.rb:39 | finds the first `/` of a key: the position holds `/` and nothing before it does; none means the key has no `/` |
| UrlGenerator.SplitBuildpackCacheKey | lib/cloud_controller/blobstore/url_generator/internal_url_generator.rb:39 | the inverse of the v3 cache key: any split it returns rebuilds the key from a slash-free guid; it fails only on keys without `/` |
| UrlGenerator.BuildpackCacheKeyRoundTrip | lib/cloud_controller/blobstore/url_generator/internal_url_generator.rb:39 | splitting the v3 cache key of a slash-free guid and a stack gives back that guid and stack |
| UrlGenerator.BuildpackCacheKeyInjective | lib/cloud_controller/blobstore/url_generator/internal_url_generator.rb:39 | two slash-free app guids with stacks share a v3 cache key only when both guids and both stacks are equal |
| UrlGenerator.BuildpackCacheKeyCollision | lib/cloud_controller/blobstore/url_generator/internal_url_generator.rb:39 | without the slash-free guid, two different app guids can share a v3 cache key |
| UrlGenerator.PackageUrlsAgree | lib/cloud_controller/blobstore/url_generator/internal_url_generator.rb:17-29 | the app-package and package methods read the same store, so equal guids give equal results |
| UrlGenerator.BuildpackCacheUrlsAgree | lib/cloud_controller/blobstore/url_generator/internal_url_generator.rb:31-43 | the v2 and v3 buildpack-cache methods agree when the app's cache key is `"{app_guid}/{stack}"` |
| UrlGenerator.DropletUrlsAgree | lib/cloud_controller/blobstore/url_generator/internal_url_generator.rb:52-64 | the v2 and v3 droplet methods agree when the droplet's own blob is the one the droplet blobstore holds under its key |
| UrlGenerator.EachUrlReadsOnlyItsBlobstore | lib/cloud_controller/blobstore/url_generator/internal_url_generator.rb:8-64 | replacing the blobstores a method does not use never changes its result; the v2 droplet method reads none of the four |
| ClientProvider.Provide | spec/unit/lib/cloud_controller/blobstore/client_provider_spec.rb:8-65 | unset or fog: a FogClient built from the connection, with a Cdn exactly when a cdn option is given, or a `fog_connection` key error; webdav: a DavClient or a `webdav_config` key error; every client is bound to the directory key |
| ClientProvider.ResolvedType | spec/unit/lib/cloud_controller/blobstore/client_provider_spec.rb:8-29 | an unset `blobstore_type` resolves to fog; a set type is kept |
| ClientProvider.CdnFor | spec/unit/lib/cloud_controller/blobstore/client_provider_spec.rb:31-42 | the fog client gets a Cdn exactly when a cdn option is given, carrying that option's uri |
| ClientProvider.ProvideFog | spec/unit/lib/cloud_controller/blobstore/client_provider_spec.rb:20-52 | the fog branch fails exactly when there is no fog connection |
| ClientProvider.ProvideWebdav | spec/unit/lib/cloud_controller/blobstore/client_provider_spec.rb:56-65 | the webdav branch fails exactly when there is no webdav config |
| ClientProvider.UnsetTypeProvidesFog | spec/unit/lib/cloud_controller/blobstore/client_provider_spec.rb:8-17 | with no type and a fog connection, the wrapped client is a FogClient without a Cdn |
| ClientProvider.FogTypeProvidesFog | spec/unit/lib/cloud_controller/blobstore/client_provider_spec.rb:20-29 | with type fog and a fog connection, the wrapped client is a FogClient |
| ClientProvider.CdnOptionBuildsFogCdn | spec/unit/lib/cloud_controller/blobstore/client_provider_spec.rb:31-42 | a cdn option with a uri makes the FogClient's third argument a Cdn for that uri |
| ClientProvider.MissingFogConnectionIsKeyError | spec/unit/lib/cloud_controller/blobstore/client_provider_spec.rb:45-52 | fog without `fog_connection` is a key error, whatever else the options hold |
| ClientProvider.WebdavTypeProvidesDav | spec/unit/lib/cloud_controller/blobstore/client_provider_spec.rb:56-65 | webdav with a config wraps a DavClient, and the cdn option does not change it |
| PackageDownload.Download | spec/unit/actions/package_download_spec.rb:29-53 | not local: `(nil, public_download_url)`; local: `(local_path, nil)`; exactly one is set, chosen by `local?` alone; a missing blob is an error |
| PackageDownload.DownloadReadsOnlyPackageBlobstore | spec/unit/actions/package_download_spec.rb:9-11 | the download depends on the package blobstore only |
| PackageDownload.DownloadMatchesInternalPackageUrl | lib/cloud_controller/blobstore/url_generator/internal_url_generator.rb:24-29 | a download succeeds exactly when the internal generator over the same package blobstore has a URL for the package |
| AppLifecycleProvider.LifecycleType | lib/cloud_controller/diego/lifecycles/app_lifecycle_provider.rb:21-28 | the requested type wins, even when an app exists; then the app's type; then the default `buildpack` |
| AppLifecycleProvider.LifecycleTable | lib/cloud_controller/diego/lifecycles/app_lifecycle_provider.rb:7-10 | the table holds exactly `buildpack` and `docker`, mapped to the buildpack and docker lifecycle classes |
| AppLifecycleProvider.Provide | lib/cloud_controller/diego/lifecycles/app_lifecycle_provider.rb:21-31 | succeeds exactly when the chosen type is in the table; the class is buildpack exactly for `buildpack`; the lifecycle is built from the message |
| AppLifecycleProvider.ProvideForCreate | lib/cloud_controller/diego/lifecycles/app_lifecycle_provider.rb:13-15 | without a requested lifecycle, create always gives a buildpack lifecycle; otherwise it succeeds exactly for a known type |
| AppLifecycleProvider.ProvideForUpdate | lib/cloud_controller/diego/lifecycles/app_lifecycle_provider.rb:17-19 | a requested lifecycle gives what create gives; otherwise the app's own type decides |
| Runtime.AppPortError | app/models/runtime/route_mapping.rb:14-19 | `diego_only` exactly for a set port on a non-diego app; `not_bound_to_app` exactly for a set port a diego app lacks; no error exactly when the port is unset or is one of a diego app's ports |
| Runtime.AppPortErrors | app/models/runtime/route_mapping.rb:15-18 | validation appends at most one error, always on `app_port`, and none exactly when the port is acceptable |
| Runtime.DefaultAppPort | app/models/runtime/route_mapping.rb:23-26 | a set port, or any port of a non-diego app, is kept; an unset port on a diego app becomes its first port, or stays unset if it has none |
| Runtime.DefaultPortKeepsValidity | app/models/runtime/route_mapping.rb:14-26 | filling in the port never changes the validation outcome |
| Runtime.DefaultPortIdempotent | app/models/runtime/route_mapping.rb:23-26 | filling in the port twice is the same as once |
| Runtime.RouteMapping.Validate | app/models/runtime/route_mapping.rb:14-21 | `errors` becomes the old errors plus the app_port errors of the current port and app |
| Runtime.RouteMapping.BeforeSave | app/models/runtime/route_mapping.rb:23-28 | `appPort` becomes the defaulted port; a set port, or the port of a non-diego mapping, is unchanged |

## Left out

- The external (public) URL generator, URL signing, CDN host rewriting and the URL helper mixin: they are not part of this model. Blobs carry their URLs as given strings.
- The blobstore backends (fog, WebDAV, local driver), their network calls and their failures: a store is an immutable key-to-blob map, so backend errors are not modelled.
- The generator's `blobstore_options` constructor argument: no modelled method reads it.
- `Droplet#blob` is not part of this model. A droplet carries the blob that accessor would return as a field.
- `App#buildpack_cache_key` is not part of this model. It is an opaque field of the app.
- ClientProvider.Provide: the provider's own source is not part of this model; it follows the tests. `blobstore_type` is a closed choice of unset, fog or webdav, so other strings are not represented. The retry, error-handling and safe-delete wrappers, `root_dir` and the size limits are not modelled. A missing `webdav_config` is modelled as a key error, like the fog case; the tests do not cover it.
- PackageDownload.Download: the action's own source is not part of this model; it follows the tests. The blob key is taken to be `package.guid`. A missing blob is a `BlobNotFound` failure, where the Ruby code would fail on nil.
- AppLifecycleProvider.Provide: a type missing from the table is a `NoLifecycleClass` failure, where Ruby would fail calling `new` on nil. The lifecycle objects are reduced to their class and message.
- Runtime.RouteMapping: `app.ports` is a sequence, so a nil port list is not modelled. The errors collection is a sequence of (attribute, error) pairs in insertion order. The `before_create` and `after_create` hooks, the `super` chains and persistence are not modelled.
- Concurrency and process-lifetime sharing of clients: not modelled, since every modelled blobstore and client operation is a pure read.
- Blobstore.Store is not derived from the provider's ClientProvider.Client. The model does not state that a store built from a fog or Dav client has `local` false, since the backends that decide `local?` are not part of this model.
- ClientProvider.WebdavTypeProvidesDav: a cdn option on webdav is ignored, and webdav is built undecorated. It is not treated as a configuration error, because the tests do not settle the point.
