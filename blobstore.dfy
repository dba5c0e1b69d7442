/** Blobstore clients as their callers observe them: a directory of stored
    objects reached by key, and whether the backend is the local filesystem.
    The backends themselves (object store, WebDAV, local driver) are not part
    of this model. */
module Blobstore {
  import opened Wrappers

  /** A handle to one stored object and the three ways to reach it. */
  datatype Blob = Blob(internalDownloadUrl: string, publicDownloadUrl: string, localPath: string)

  /** The contents of one blobstore client, bound to its directory key:
      `blobs` holds the objects that exist, `local` is the client's `local?`. */
  datatype Store = Store(directoryKey: string, local: bool, blobs: map<string, Blob>) {

    /** `blob(key)`: the handle of an existing object, and nil (never an
        error) for a key that has none. */
    function Lookup(key: string): (r: Option<Blob>)
      ensures r.Some? <==> key in blobs
      ensures r.Some? ==> r.value == blobs[key]
    {
      if key in blobs then Some(blobs[key]) else None
    }
  }

  /** The four artifact blobstores the dependency locator hands out. */
  datatype ArtifactBlobstores = ArtifactBlobstores(
    packageBlobstore: Store,
    buildpackCacheBlobstore: Store,
    adminBuildpackBlobstore: Store,
    dropletBlobstore: Store)
}
