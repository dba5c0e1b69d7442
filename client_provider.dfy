/** Blobstore client provider: chooses a backend from the blobstore options
    and returns it inside the uniform client wrapper. */
module ClientProvider {
  import opened Wrappers

  /** The `blobstore_type` values the provider recognises. */
  datatype BlobstoreType = Fog | Webdav

  /** Connection settings are opaque to the provider; it only passes them on. */
  datatype FogConnection = FogConnection(settings: map<string, string>)

  datatype WebdavConfig = WebdavConfig(settings: map<string, string>)

  datatype CdnOptions = CdnOptions(uri: string)

  /** The options hash: `blobstore_type`, `fog_connection`, `webdav_config`, `cdn`. */
  datatype Options = Options(
    blobstoreType: Option<BlobstoreType>,
    fogConnection: Option<FogConnection>,
    webdavConfig: Option<WebdavConfig>,
    cdn: Option<CdnOptions>)

  datatype Cdn = Cdn(uri: string)

  /** The concrete backends, with the arguments they are built from. */
  datatype Backend =
    | FogClient(connection: FogConnection, directoryKey: string, cdn: Option<Cdn>)
    | DavClient(config: WebdavConfig, directoryKey: string)

  /** The uniform client; `wrappedClient` is the selected backend. What the
      client holds once built is `Blobstore.Store`; the provider only decides
      how it is built. */
  datatype Client = Client(wrappedClient: Backend)

  /** `options.fetch(key)` on a missing key. */
  datatype ProviderError = KeyError(key: string)

  /** An unset type selects fog. */
  function ResolvedType(options: Options): (t: BlobstoreType)
    ensures options.blobstoreType.None? ==> t == Fog
    ensures options.blobstoreType.Some? ==> t == options.blobstoreType.value
  {
    match options.blobstoreType
    case None => Fog
    case Some(t) => t
  }

  /** The Cdn a fog client is built with: one exactly when a cdn option is given. */
  function CdnFor(options: Options): (cdn: Option<Cdn>)
    ensures cdn.Some? <==> options.cdn.Some?
    ensures cdn.Some? ==> cdn.value.uri == options.cdn.value.uri
  {
    match options.cdn
    case None => None
    case Some(c) => Some(Cdn(c.uri))
  }

  function ProvideFog(options: Options, directoryKey: string): (r: Result<Client, ProviderError>)
    ensures r.Failure? <==> options.fogConnection.None?
  {
    match options.fogConnection
    case None => Failure(KeyError("fog_connection"))
    case Some(connection) => Success(Client(FogClient(connection, directoryKey, CdnFor(options))))
  }

  function ProvideWebdav(options: Options, directoryKey: string): (r: Result<Client, ProviderError>)
    ensures r.Failure? <==> options.webdavConfig.None?
  {
    match options.webdavConfig
    case None => Failure(KeyError("webdav_config"))
    case Some(config) => Success(Client(DavClient(config, directoryKey)))
  }

  /** `ClientProvider.provide(options:, directory_key:)`. */
  function Provide(options: Options, directoryKey: string): (r: Result<Client, ProviderError>)
    // fog (unset or requested): a FogClient, or a key error without a connection
    ensures ResolvedType(options) == Fog ==>
      (r.Failure? <==> options.fogConnection.None?)
      && (r.Failure? ==> r.error == KeyError("fog_connection"))
      && (r.Success? ==> r.value.wrappedClient.FogClient?
                         && r.value.wrappedClient.connection == options.fogConnection.value
                         && (r.value.wrappedClient.cdn.Some? <==> options.cdn.Some?))
    // webdav: a DavClient, or a key error without a config
    ensures ResolvedType(options) == Webdav ==>
      (r.Failure? <==> options.webdavConfig.None?)
      && (r.Failure? ==> r.error == KeyError("webdav_config"))
      && (r.Success? ==> r.value.wrappedClient.DavClient?
                         && r.value.wrappedClient.config == options.webdavConfig.value)
    // every provided client is bound to the requested directory
    ensures r.Success? ==> r.value.wrappedClient.directoryKey == directoryKey
  {
    match ResolvedType(options)
    case Fog => ProvideFog(options, directoryKey)
    case Webdav => ProvideWebdav(options, directoryKey)
  }

  /** When no type is requested, a fog connection yields a FogClient. */
  lemma UnsetTypeProvidesFog(connection: FogConnection, directoryKey: string)
    ensures var r := Provide(Options(None, Some(connection), None, None), directoryKey);
            r.Success? && r.value.wrappedClient == FogClient(connection, directoryKey, None)
  {
  }

  /** When fog is requested with a connection, the client wraps a FogClient;
      a cdn option becomes the FogClient's Cdn. */
  lemma FogTypeProvidesFog(options: Options, directoryKey: string)
    requires options.blobstoreType == Some(Fog) && options.fogConnection.Some?
    ensures var r := Provide(options, directoryKey);
            r.Success? && r.value.wrappedClient.FogClient?
            && r.value.wrappedClient.cdn == CdnFor(options)
  {
  }

  /** A cdn option with a uri gives the FogClient that uri's Cdn. */
  lemma CdnOptionBuildsFogCdn(connection: FogConnection, uri: string, directoryKey: string)
    ensures var r := Provide(Options(Some(Fog), Some(connection), None, Some(CdnOptions(uri))), directoryKey);
            r.Success? && r.value.wrappedClient.cdn == Some(Cdn(uri))
  {
  }

  /** Fog without `fog_connection` is a key error, whatever else is set. */
  lemma MissingFogConnectionIsKeyError(options: Options, directoryKey: string)
    requires ResolvedType(options) == Fog && options.fogConnection.None?
    ensures Provide(options, directoryKey) == Failure(KeyError("fog_connection"))
  {
  }

  /** Webdav with a config yields a DavClient and never uses the cdn option. */
  lemma WebdavTypeProvidesDav(options: Options, directoryKey: string)
    requires options.blobstoreType == Some(Webdav) && options.webdavConfig.Some?
    ensures var r := Provide(options, directoryKey);
            r == Success(Client(DavClient(options.webdavConfig.value, directoryKey)))
            && r == Provide(options.(cdn := None), directoryKey)
  {
  }
}
