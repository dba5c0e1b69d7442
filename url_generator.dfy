/** The internal URL generator. Six of its methods derive a blob key from an
    app, package, buildpack or droplet, look it up in one of four artifact
    blobstores and return that blob's internal download URL, or nil when there
    is none. The v2 droplet method derives no key and reads none of the four:
    it follows the app to its current droplet and then to that droplet's own
    blob. */
module UrlGenerator {
  import opened Wrappers
  import opened Blobstore

  /** A droplet: the key it is stored under, and the blob its own `blob`
      accessor finds for it (that accessor is not part of this model). */
  datatype Droplet = Droplet(blobstoreKey: string, blob: Option<Blob>)

  datatype App = App(guid: string, buildpackCacheKey: string, currentDroplet: Option<Droplet>)

  datatype Package = Package(guid: string)

  datatype Buildpack = Buildpack(key: string)

  /** The step every method ends with: nil when there is no blob, otherwise
      the blob's internal (never its public) download URL. */
  function InternalUrlOf(blob: Option<Blob>): (r: Option<string>)
    ensures r.None? <==> blob.None?
    ensures r.Some? ==> r.value == blob.value.internalDownloadUrl
  {
    match blob
    case None => None
    case Some(b) => Some(b.internalDownloadUrl)
  }

  /** The key of a v3 app's buildpack cache for one stack: "{app_guid}/{stack}". */
  function V3BuildpackCacheKey(appGuid: string, stack: string): (key: string)
    ensures |key| == |appGuid| + 1 + |stack|
    ensures key[..|appGuid|] == appGuid && key[|appGuid|] == '/' && key[|appGuid| + 1..] == stack
  {
    appGuid + "/" + stack
  }

  /** The position of the first '/' in `s`, if any. */
  function FirstSlash(s: string): (r: Option<nat>)
    ensures r.Some? ==> r.value < |s| && s[r.value] == '/'
    ensures r.Some? ==> forall j :: 0 <= j < r.value ==> s[j] != '/'
    ensures r.None? ==> forall j :: 0 <= j < |s| ==> s[j] != '/'
  {
    if s == [] then None
    else if s[0] == '/' then Some(0)
    else match FirstSlash(s[1..])
      case None => None
      case Some(i) => Some(i + 1)
  }

  /** Reads an app guid and a stack back out of a buildpack-cache key, splitting
      at the first '/'. */
  function SplitBuildpackCacheKey(key: string): (r: Option<(string, string)>)
    ensures r.Some? ==> '/' !in r.value.0 && V3BuildpackCacheKey(r.value.0, r.value.1) == key
    ensures r.None? <==> '/' !in key
  {
    match FirstSlash(key)
    case None => None
    case Some(i) =>
      assert key == key[..i] + "/" + key[i + 1..];
      Some((key[..i], key[i + 1..]))
  }

  /** A slash-free app guid and any stack are recovered from their cache key. */
  lemma BuildpackCacheKeyRoundTrip(appGuid: string, stack: string)
    requires '/' !in appGuid
    ensures SplitBuildpackCacheKey(V3BuildpackCacheKey(appGuid, stack)) == Some((appGuid, stack))
  {
  }

  /** Distinct (slash-free app guid, stack) pairs never share a cache key. */
  lemma BuildpackCacheKeyInjective(appGuid1: string, stack1: string, appGuid2: string, stack2: string)
    requires '/' !in appGuid1 && '/' !in appGuid2
    requires V3BuildpackCacheKey(appGuid1, stack1) == V3BuildpackCacheKey(appGuid2, stack2)
    ensures appGuid1 == appGuid2 && stack1 == stack2
  {
    BuildpackCacheKeyRoundTrip(appGuid1, stack1);
    BuildpackCacheKeyRoundTrip(appGuid2, stack2);
  }

  /** Without the slash-free guid, two different apps can share a cache key. */
  lemma BuildpackCacheKeyCollision()
    ensures exists g1, s1, g2, s2 :: g1 != g2 && V3BuildpackCacheKey(g1, s1) == V3BuildpackCacheKey(g2, s2)
  {
    assert V3BuildpackCacheKey("a/b", "c") == V3BuildpackCacheKey("a", "b/c");
  }

  /** The generator holds the four artifact blobstores it was built with. */
  datatype InternalUrlGenerator = InternalUrlGenerator(
    packageBlobstore: Store,
    buildpackCacheBlobstore: Store,
    adminBuildpackBlobstore: Store,
    dropletBlobstore: Store)
  {
    function AppPackageDownloadUrl(app: App): (url: Option<string>)
      ensures url.None? <==> app.guid !in packageBlobstore.blobs
      ensures url.Some? ==> url.value == packageBlobstore.blobs[app.guid].internalDownloadUrl
    {
      InternalUrlOf(packageBlobstore.Lookup(app.guid))
    }

    function PackageDownloadUrl(package: Package): (url: Option<string>)
      ensures url.None? <==> package.guid !in packageBlobstore.blobs
      ensures url.Some? ==> url.value == packageBlobstore.blobs[package.guid].internalDownloadUrl
    {
      InternalUrlOf(packageBlobstore.Lookup(package.guid))
    }

    function BuildpackCacheDownloadUrl(app: App): (url: Option<string>)
      ensures url.None? <==> app.buildpackCacheKey !in buildpackCacheBlobstore.blobs
      ensures url.Some? ==> url.value == buildpackCacheBlobstore.blobs[app.buildpackCacheKey].internalDownloadUrl
    {
      InternalUrlOf(buildpackCacheBlobstore.Lookup(app.buildpackCacheKey))
    }

    function V3AppBuildpackCacheDownloadUrl(appGuid: string, stack: string): (url: Option<string>)
      ensures url.None? <==> appGuid + "/" + stack !in buildpackCacheBlobstore.blobs
      ensures url.Some? ==> url.value == buildpackCacheBlobstore.blobs[appGuid + "/" + stack].internalDownloadUrl
    {
      InternalUrlOf(buildpackCacheBlobstore.Lookup(V3BuildpackCacheKey(appGuid, stack)))
    }

    function AdminBuildpackDownloadUrl(buildpack: Buildpack): (url: Option<string>)
      ensures url.None? <==> buildpack.key !in adminBuildpackBlobstore.blobs
      ensures url.Some? ==> url.value == adminBuildpackBlobstore.blobs[buildpack.key].internalDownloadUrl
    {
      InternalUrlOf(adminBuildpackBlobstore.Lookup(buildpack.key))
    }

    /** Two hops: no current droplet gives nil, and a droplet without a blob
        gives nil. */
    function DropletDownloadUrl(app: App): (url: Option<string>)
      ensures app.currentDroplet.None? ==> url.None?
      ensures app.currentDroplet.Some? ==> (url.None? <==> app.currentDroplet.value.blob.None?)
      ensures url.Some? ==> url.value == app.currentDroplet.value.blob.value.internalDownloadUrl
    {
      match app.currentDroplet
      case None => None
      case Some(droplet) => InternalUrlOf(droplet.blob)
    }

    function V3DropletDownloadUrl(droplet: Droplet): (url: Option<string>)
      ensures url.None? <==> droplet.blobstoreKey !in dropletBlobstore.blobs
      ensures url.Some? ==> url.value == dropletBlobstore.blobs[droplet.blobstoreKey].internalDownloadUrl
    {
      InternalUrlOf(dropletBlobstore.Lookup(droplet.blobstoreKey))
    }
  }

  /** An app and a package with the same guid reach the same package blob. */
  lemma PackageUrlsAgree(g: InternalUrlGenerator, app: App, package: Package)
    requires app.guid == package.guid
    ensures g.AppPackageDownloadUrl(app) == g.PackageDownloadUrl(package)
  {
  }

  /** The v2 and v3 buildpack-cache lookups agree when the app's cache key is
      the "{app_guid}/{stack}" key. */
  lemma BuildpackCacheUrlsAgree(g: InternalUrlGenerator, app: App, stack: string)
    requires app.buildpackCacheKey == V3BuildpackCacheKey(app.guid, stack)
    ensures g.BuildpackCacheDownloadUrl(app) == g.V3AppBuildpackCacheDownloadUrl(app.guid, stack)
  {
  }

  /** The v2 and v3 droplet lookups agree when the current droplet's own blob
      is the one the droplet blobstore holds under its key. */
  lemma DropletUrlsAgree(g: InternalUrlGenerator, app: App)
    requires app.currentDroplet.Some?
    requires app.currentDroplet.value.blob == g.dropletBlobstore.Lookup(app.currentDroplet.value.blobstoreKey)
    ensures g.DropletDownloadUrl(app) == g.V3DropletDownloadUrl(app.currentDroplet.value)
  {
  }

  /** Each method reads only its own blobstore: replacing the other three
      changes no result. */
  lemma EachUrlReadsOnlyItsBlobstore(g: InternalUrlGenerator, other: InternalUrlGenerator,
                                     app: App, package: Package, buildpack: Buildpack,
                                     droplet: Droplet, appGuid: string, stack: string)
    ensures g.(buildpackCacheBlobstore := other.buildpackCacheBlobstore,
               adminBuildpackBlobstore := other.adminBuildpackBlobstore,
               dropletBlobstore := other.dropletBlobstore).AppPackageDownloadUrl(app)
            == g.AppPackageDownloadUrl(app)
    ensures g.(buildpackCacheBlobstore := other.buildpackCacheBlobstore,
               adminBuildpackBlobstore := other.adminBuildpackBlobstore,
               dropletBlobstore := other.dropletBlobstore).PackageDownloadUrl(package)
            == g.PackageDownloadUrl(package)
    ensures g.(packageBlobstore := other.packageBlobstore,
               adminBuildpackBlobstore := other.adminBuildpackBlobstore,
               dropletBlobstore := other.dropletBlobstore).BuildpackCacheDownloadUrl(app)
            == g.BuildpackCacheDownloadUrl(app)
    ensures g.(packageBlobstore := other.packageBlobstore,
               adminBuildpackBlobstore := other.adminBuildpackBlobstore,
               dropletBlobstore := other.dropletBlobstore).V3AppBuildpackCacheDownloadUrl(appGuid, stack)
            == g.V3AppBuildpackCacheDownloadUrl(appGuid, stack)
    ensures g.(packageBlobstore := other.packageBlobstore,
               buildpackCacheBlobstore := other.buildpackCacheBlobstore,
               dropletBlobstore := other.dropletBlobstore).AdminBuildpackDownloadUrl(buildpack)
            == g.AdminBuildpackDownloadUrl(buildpack)
    ensures other.DropletDownloadUrl(app) == g.DropletDownloadUrl(app)
    ensures g.(packageBlobstore := other.packageBlobstore,
               buildpackCacheBlobstore := other.buildpackCacheBlobstore,
               adminBuildpackBlobstore := other.adminBuildpackBlobstore).V3DropletDownloadUrl(droplet)
            == g.V3DropletDownloadUrl(droplet)
  {
  }
}
