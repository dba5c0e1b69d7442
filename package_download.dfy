/** The package download action: serve a package's bits either as a local
    file path or as a public download URL, depending on the package
    blobstore's `local?`. */
module PackageDownload {
  import opened Wrappers
  import opened Blobstore
  import UrlGenerator

  /** The `[file, url]` pair the action returns. */
  datatype Location = Location(file: Option<string>, url: Option<string>)

  /** The package blobstore holds no blob for the package. */
  datatype DownloadError = BlobNotFound(key: string)

  /** `download(package)`: looks the package up in the package blobstore only. */
  function Download(blobstores: ArtifactBlobstores, package: UrlGenerator.Package): (r: Result<Location, DownloadError>)
    ensures r.Failure? <==> package.guid !in blobstores.packageBlobstore.blobs
    ensures r.Failure? ==> r.error == BlobNotFound(package.guid)
    // exactly one of file and url is set, and local? alone decides which
    ensures r.Success? ==> (r.value.file.Some? <==> r.value.url.None?)
    ensures r.Success? ==> (r.value.file.Some? <==> blobstores.packageBlobstore.local)
    ensures r.Success? && blobstores.packageBlobstore.local ==>
      r.value.file == Some(blobstores.packageBlobstore.blobs[package.guid].localPath)
    ensures r.Success? && !blobstores.packageBlobstore.local ==>
      r.value.url == Some(blobstores.packageBlobstore.blobs[package.guid].publicDownloadUrl)
  {
    var blobstore := blobstores.packageBlobstore;
    match blobstore.Lookup(package.guid)
    case None => Failure(BlobNotFound(package.guid))
    case Some(blob) =>
      if blobstore.local then Success(Location(Some(blob.localPath), None))
      else Success(Location(None, Some(blob.publicDownloadUrl)))
  }

  /** The other three artifact blobstores play no part in a download. */
  lemma DownloadReadsOnlyPackageBlobstore(blobstores: ArtifactBlobstores, other: ArtifactBlobstores,
                                          package: UrlGenerator.Package)
    requires other.packageBlobstore == blobstores.packageBlobstore
    ensures Download(other, package) == Download(blobstores, package)
  {
  }

  /** A download succeeds exactly when the internal generator, built over the
      same package blobstore, has an internal URL for the package; the remote
      download hands out the same blob's public URL instead. */
  lemma DownloadMatchesInternalPackageUrl(blobstores: ArtifactBlobstores, g: UrlGenerator.InternalUrlGenerator,
                                          package: UrlGenerator.Package)
    requires g.packageBlobstore == blobstores.packageBlobstore
    ensures Download(blobstores, package).Success? <==> g.PackageDownloadUrl(package).Some?
    ensures Download(blobstores, package).Success? ==>
      g.PackageDownloadUrl(package) == Some(blobstores.packageBlobstore.blobs[package.guid].internalDownloadUrl)
  {
  }
}
