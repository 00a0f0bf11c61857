/** Extensions.kt: building trust managers from key stores, choosing the
    operating system's key store, assembling the list `[default] + os` into a
    composite and installing that composite into an OkHttp client builder.
    `KeyStore.getInstance`/`load` and `TrustManagerFactory` are JDK calls and
    appear only through the opaque `Jdk` value. */
module Extensions {
  import opened TrustManagers
  import opened OperatingSystems
  import opened MultiTrust

  const MacKeyStoreType := "KeychainStore"
  const WindowsKeyStoreType := "Windows-ROOT"
  const TlsProtocol := "TLS"

  // Messages of Kotlin's `Array.single()`.
  const EmptyArrayMessage := "Array is empty."
  const ManyElementsMessage := "Array has more than one element."

  datatype Option<+T> = None | Some(value: T)

  /** A key store after `KeyStore.getInstance(type)` and `load(null, null)`;
      its certificates are whatever the platform keeps there. */
  datatype KeyStore = KeyStore(storeType: string, certificates: seq<Certificate>)

  /** An element of `TrustManagerFactory.trustManagers`: an X509 trust manager
      or some other kind of trust manager. */
  datatype TrustManagerEntry = X509Entry(manager: X509TrustManager) | OtherEntry

  /** The JDK as seen from Extensions.kt. `loadKeyStore(type)` is
      `KeyStore.getInstance(type)` followed by `load(null, null)`;
      `factoryTrustManagers(ks)` is a `TrustManagerFactory` for the default
      algorithm, initialised with `ks` (`None` for null, the default trust
      anchors), and its `trustManagers`. Either may throw. */
  datatype Jdk = Jdk(
    loadKeyStore: string -> Result<KeyStore>,
    factoryTrustManagers: Option<KeyStore> -> Result<seq<TrustManagerEntry>>)

  /* ---------- Building one trust manager ---------- */

  /** Kotlin's `Array.single()`. */
  function Single<T>(xs: seq<T>): (r: Result<T>)
    ensures r.Success? <==> |xs| == 1
    ensures r.Success? ==> xs == [r.value]
    ensures |xs| == 0 ==> r == Failure(NoSuchElementException(EmptyArrayMessage))
    ensures |xs| > 1 ==> r == Failure(IllegalArgumentException(ManyElementsMessage))
  {
    if |xs| == 0 then Failure(NoSuchElementException(EmptyArrayMessage))
    else if |xs| == 1 then Success(xs[0])
    else Failure(IllegalArgumentException(ManyElementsMessage))
  }

  /** The factory initialised with `keyStore` produces `m` and nothing else. */
  ghost predicate SoleManagerOf(jdk: Jdk, keyStore: Option<KeyStore>, m: X509TrustManager)
  {
    jdk.factoryTrustManagers(keyStore) == Success([X509Entry(m)])
  }

  /** The factory initialised with `keyStore` produces exactly one trust
      manager, and it is an X509 one. */
  predicate YieldsOneX509(jdk: Jdk, keyStore: Option<KeyStore>)
  {
    var f := jdk.factoryTrustManagers(keyStore);
    f.Success? && |f.value| == 1 && f.value[0].X509Entry?
  }

  /** `buildTrustManagerForKeyStore`: `single()` of the factory's trust
      managers, cast to `X509TrustManager`. */
  function BuildTrustManagerForKeyStore(jdk: Jdk, keyStore: Option<KeyStore>): (r: Result<X509TrustManager>)
    ensures r.Success? <==> YieldsOneX509(jdk, keyStore)
    ensures r.Success? ==> SoleManagerOf(jdk, keyStore, r.value)
    ensures jdk.factoryTrustManagers(keyStore).Failure? ==> r.Failure? && r.error == jdk.factoryTrustManagers(keyStore).error
    ensures jdk.factoryTrustManagers(keyStore).Success? && |jdk.factoryTrustManagers(keyStore).value| == 0 ==>
              r == Failure(NoSuchElementException(EmptyArrayMessage))
    ensures jdk.factoryTrustManagers(keyStore).Success? && |jdk.factoryTrustManagers(keyStore).value| > 1 ==>
              r == Failure(IllegalArgumentException(ManyElementsMessage))
    ensures jdk.factoryTrustManagers(keyStore) == Success([OtherEntry]) ==> r == Failure(ClassCastException)
  {
    match jdk.factoryTrustManagers(keyStore)
    case Failure(e) => Failure(e)
    case Success(entries) =>
      match Single(entries)
      case Failure(e) => Failure(e)
      case Success(entry) =>
        match entry
        case X509Entry(m) => Success(m)
        case OtherEntry => Failure(ClassCastException)
  }

  /** The store of type `storeType` loads, and the factory initialised with it
      yields exactly one X509 trust manager. */
  predicate StoreTypeUsable(jdk: Jdk, storeType: string)
  {
    var ks := jdk.loadKeyStore(storeType);
    ks.Success? && YieldsOneX509(jdk, Some(ks.value))
  }

  /** `m` is the sole trust manager the factory yields for the loaded store
      of type `storeType`. */
  ghost predicate BuiltFromStoreType(jdk: Jdk, storeType: string, m: X509TrustManager)
  {
    var ks := jdk.loadKeyStore(storeType);
    ks.Success? && SoleManagerOf(jdk, Some(ks.value), m)
  }

  /** `buildTrustManagerForKeyStoreType`: load the named store, then build from it. */
  function BuildTrustManagerForKeyStoreType(jdk: Jdk, storeType: string): (r: Result<X509TrustManager>)
    ensures r.Success? <==> StoreTypeUsable(jdk, storeType)
    ensures r.Success? ==> BuiltFromStoreType(jdk, storeType, r.value)
    ensures jdk.loadKeyStore(storeType).Failure? ==> r.Failure? && r.error == jdk.loadKeyStore(storeType).error
    ensures var ks := jdk.loadKeyStore(storeType);
            ks.Success? && jdk.factoryTrustManagers(Some(ks.value)).Failure? ==>
              r == Failure(jdk.factoryTrustManagers(Some(ks.value)).error)
    ensures var ks := jdk.loadKeyStore(storeType);
            ks.Success? && jdk.factoryTrustManagers(Some(ks.value)).Success? &&
            |jdk.factoryTrustManagers(Some(ks.value)).value| == 0 ==>
              r == Failure(NoSuchElementException(EmptyArrayMessage))
    ensures var ks := jdk.loadKeyStore(storeType);
            ks.Success? && jdk.factoryTrustManagers(Some(ks.value)).Success? &&
            |jdk.factoryTrustManagers(Some(ks.value)).value| > 1 ==>
              r == Failure(IllegalArgumentException(ManyElementsMessage))
    ensures var ks := jdk.loadKeyStore(storeType);
            ks.Success? && jdk.factoryTrustManagers(Some(ks.value)) == Success([OtherEntry]) ==>
              r == Failure(ClassCastException)
  {
    match jdk.loadKeyStore(storeType)
    case Failure(e) => Failure(e)
    case Success(ks) => BuildTrustManagerForKeyStore(jdk, Some(ks))
  }

  /** `getDefaultTrustManager`: the factory's manager for the default anchors. */
  function GetDefaultTrustManager(jdk: Jdk): (r: Result<X509TrustManager>)
    ensures r.Success? <==> YieldsOneX509(jdk, None)
    ensures r.Success? ==> SoleManagerOf(jdk, None, r.value)
    ensures jdk.factoryTrustManagers(None).Failure? ==> r == Failure(jdk.factoryTrustManagers(None).error)
  {
    BuildTrustManagerForKeyStore(jdk, None)
  }

  /** `buildMacTrustManager`: the manager for the user's keychain. */
  function BuildMacTrustManager(jdk: Jdk): (r: Result<X509TrustManager>)
    ensures r.Success? <==> StoreTypeUsable(jdk, MacKeyStoreType)
    ensures r.Success? ==> BuiltFromStoreType(jdk, MacKeyStoreType, r.value)
    ensures jdk.loadKeyStore(MacKeyStoreType).Failure? ==> r == Failure(jdk.loadKeyStore(MacKeyStoreType).error)
  {
    BuildTrustManagerForKeyStoreType(jdk, MacKeyStoreType)
  }

  /** `buildWindowsUserTrustManager`: the manager for the user's root store. */
  function BuildWindowsUserTrustManager(jdk: Jdk): (r: Result<X509TrustManager>)
    ensures r.Success? <==> StoreTypeUsable(jdk, WindowsKeyStoreType)
    ensures r.Success? ==> BuiltFromStoreType(jdk, WindowsKeyStoreType, r.value)
    ensures jdk.loadKeyStore(WindowsKeyStoreType).Failure? ==> r == Failure(jdk.loadKeyStore(WindowsKeyStoreType).error)
  {
    BuildTrustManagerForKeyStoreType(jdk, WindowsKeyStoreType)
  }

  /* ---------- Choosing the platform's trust managers ---------- */

  /** `getOSTrustManagers`: one manager from the keychain on a Mac, one from the
      user's root store on Windows, none elsewhere. */
  function GetOSTrustManagers(jdk: Jdk, os: OperatingSystem): (r: Result<seq<X509TrustManager>>)
    ensures os == Other ==> r == Success([])
    ensures os == Mac ==> (r.Success? <==> StoreTypeUsable(jdk, MacKeyStoreType))
    ensures os == Mac && r.Success? ==> |r.value| == 1 && BuiltFromStoreType(jdk, MacKeyStoreType, r.value[0])
    ensures os == Windows ==> (r.Success? <==> StoreTypeUsable(jdk, WindowsKeyStoreType))
    ensures os == Windows && r.Success? ==> |r.value| == 1 && BuiltFromStoreType(jdk, WindowsKeyStoreType, r.value[0])
    ensures os == Mac && r.Failure? ==> r.error == BuildTrustManagerForKeyStoreType(jdk, MacKeyStoreType).error
    ensures os == Windows && r.Failure? ==> r.error == BuildTrustManagerForKeyStoreType(jdk, WindowsKeyStoreType).error
  {
    match os
    case Mac =>
      (match BuildMacTrustManager(jdk)
       case Failure(e) => Failure(e)
       case Success(m) => Success([m]))
    case Windows =>
      (match BuildWindowsUserTrustManager(jdk)
       case Failure(e) => Failure(e)
       case Success(m) => Success([m]))
    case Other => Success([])
  }

  /** `listOf(getDefaultTrustManager()) + getOSTrustManagers()`: the default
      manager first, then the platform's; the default is built first, so its
      failure is the one reported when both would fail. */
  function TrustManagerList(jdk: Jdk, os: OperatingSystem): (r: Result<seq<X509TrustManager>>)
    ensures r.Success? <==> GetDefaultTrustManager(jdk).Success? && GetOSTrustManagers(jdk, os).Success?
    ensures GetDefaultTrustManager(jdk).Failure? ==> r.Failure? && r.error == GetDefaultTrustManager(jdk).error
    ensures GetDefaultTrustManager(jdk).Success? && GetOSTrustManagers(jdk, os).Failure? ==>
              r == Failure(GetOSTrustManagers(jdk, os).error)
    ensures r.Success? ==> |r.value| == (if os == Other then 1 else 2)
    ensures r.Success? ==> SoleManagerOf(jdk, None, r.value[0])
    ensures r.Success? ==> r.value[1..] == GetOSTrustManagers(jdk, os).value
  {
    match GetDefaultTrustManager(jdk)
    case Failure(e) => Failure(e)
    case Success(default) =>
      match GetOSTrustManagers(jdk, os)
      case Failure(e) => Failure(e)
      case Success(platform) => Success([default] + platform)
  }

  /** The assembled list always satisfies the composite's `init` check. */
  lemma AssembledListIsAccepted(jdk: Jdk, os: OperatingSystem)
    requires TrustManagerList(jdk, os).Success?
    ensures NewMultiX509TrustManager(TrustManagerList(jdk, os).value).Success?
    ensures NewMultiX509TrustManager(TrustManagerList(jdk, os).value).value.Valid()
  {
  }

  /** How the assembled composite decides a server chain: whatever the default
      store accepts is accepted; elsewhere than on Mac and Windows the composite
      is the default store alone; on Mac and Windows a chain the default store
      rejects is decided by the platform store, whose rejection is the one
      reported. */
  lemma AssembledCompositeDecision(jdk: Jdk, os: OperatingSystem, chain: seq<Certificate>, authType: string)
    requires TrustManagerList(jdk, os).Success?
    ensures var ms := TrustManagerList(jdk, os).value;
            ms[0].checkServerTrusted(chain, authType) == Returned ==> Verdict(ms, chain, authType) == Returned
    ensures var ms := TrustManagerList(jdk, os).value;
            os == Other ==> Verdict(ms, chain, authType) == ms[0].checkServerTrusted(chain, authType)
    ensures var ms := TrustManagerList(jdk, os).value;
            os != Other && RejectsChain(ms[0], chain, authType) ==>
              Verdict(ms, chain, authType) == ms[1].checkServerTrusted(chain, authType)
  {
  }

  /* ---------- Installing the composite ---------- */

  /** The socket factory of an `SSLContext`: the protocol and the trust
      managers the context was initialised with. */
  datatype SSLSocketFactory = SSLSocketFactory(protocol: string, trustManagers: seq<ValidMultiX509TrustManager>)

  /** `SSLContext.getInstance(protocol)`, later `init`ialised with trust managers. */
  class SSLContext {
    const protocol: string
    var trustManagers: seq<ValidMultiX509TrustManager>

    constructor (protocol: string)
      ensures this.protocol == protocol && trustManagers == []
    {
      this.protocol := protocol;
      trustManagers := [];
    }

    /** `init(null, trustManagers, null)`: no key managers, default randomness. */
    method Init(trustManagers: seq<ValidMultiX509TrustManager>)
      modifies this
      ensures this.trustManagers == trustManagers
    {
      this.trustManagers := trustManagers;
    }

    /** `socketFactory`: a factory for this context's protocol that uses the
        trust managers the context was initialised with. */
    function SocketFactory(): (f: SSLSocketFactory)
      reads this
      ensures f.protocol == protocol && f.trustManagers == trustManagers
    {
      SSLSocketFactory(protocol, trustManagers)
    }
  }

  /** The part of `OkHttpClient.Builder` that the extension touches. */
  class OkHttpClientBuilder {
    var sslSocketFactory: Option<SSLSocketFactory>
    var x509TrustManager: Option<ValidMultiX509TrustManager>

    constructor ()
      ensures sslSocketFactory == None && x509TrustManager == None
    {
      sslSocketFactory := None;
      x509TrustManager := None;
    }

    /** `sslSocketFactory(factory, trustManager)`: records both and returns the
        receiver. */
    method SetSslSocketFactory(factory: SSLSocketFactory, trustManager: ValidMultiX509TrustManager)
      returns (self: OkHttpClientBuilder)
      modifies this
      ensures self == this
      ensures sslSocketFactory == Some(factory) && x509TrustManager == Some(trustManager)
    {
      sslSocketFactory := Some(factory);
      x509TrustManager := Some(trustManager);
      self := this;
    }
  }

  /** `useOperatingSystemCertificateTrustStore`: builds the composite over the
      default and the platform's trust managers, initialises a TLS context
      with it alone, and hands the context's socket factory and the same
      composite to the builder, which it returns. When a trust manager cannot
      be built, the exception propagates and the builder is untouched. */
  method UseOperatingSystemCertificateTrustStore(builder: OkHttpClientBuilder, jdk: Jdk, platform: Companion)
    returns (r: Result<OkHttpClientBuilder>)
    modifies builder
    ensures r.Success? <==> TrustManagerList(jdk, platform.current).Success?
    ensures r.Failure? ==> r.error == TrustManagerList(jdk, platform.current).error && unchanged(builder)
    ensures r.Success? ==>
      r.value == builder &&
      builder.x509TrustManager.Some? &&
      builder.x509TrustManager.value.managers == TrustManagerList(jdk, platform.current).value &&
      builder.x509TrustManager.value.Valid() &&
      builder.sslSocketFactory == Some(SSLSocketFactory(TlsProtocol, [builder.x509TrustManager.value]))
  {
    var trustManagers := TrustManagerList(jdk, platform.current);
    if trustManagers.Failure? {
      return Failure(trustManagers.error);
    }
    var trustManager := NewMultiX509TrustManager(trustManagers.value).value;
    var sslContext := new SSLContext(TlsProtocol);
    sslContext.Init([trustManager]);
    var self := builder.SetSslSocketFactory(sslContext.SocketFactory(), trustManager);
    r := Success(self);
  }
}
