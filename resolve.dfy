/**
 * How a whole configuration is resolved: compiled-in defaults, optional
 * auto-configuration, explicit constructor arguments and a final URL
 * normalisation (Config.java:382-576); auto-configuration itself
 * (Config.java:247-283); and the decision `refresh` takes (Config.java:820-841).
 */
module Resolve {
  import opened Wrappers
  import opened Text
  import opened Model
  import opened Urls
  import opened Discovery
  import opened Probe

  // ---------------------------------------------------------------------------
  // Defaults (Config.java:396-426)
  // ---------------------------------------------------------------------------

  /** A request configuration with every setting null. */
  const UnsetRequestConfig := RequestConfig(None, None, None, None, None, None, None, None, None, None, None)

  /** A configuration with every field null. */
  const Unset := ConfigData(
    None, None, None, None, None, None, None, None, None, None,
    None, None, None, None, None, None, None, None, None, None,
    None, None, None, None, None, None, None, None, UnsetRequestConfig, None,
    None, None, None, None, None, None, None, None, None, None,
    None, None)

  /** The request configuration built from the compiled-in defaults. */
  const DefaultRequestConfig := RequestConfig(
    Some(-1), Some(DEFAULT_WATCH_RECONNECT_INTERVAL), Some(DEFAULT_REQUEST_TIMEOUT), Some(DEFAULT_SCALE_TIMEOUT),
    Some(DEFAULT_LOGGING_INTERVAL), Some(DEFAULT_REQUEST_RETRY_BACKOFFLIMIT),
    Some(DEFAULT_REQUEST_RETRY_BACKOFFINTERVAL), Some(DEFAULT_UPLOAD_REQUEST_TIMEOUT), None, None, None)

  /** The fields as the first step of the constructor leaves them. */
  function Defaults(shouldSetDefaultValues: bool, w: World): (r: ConfigData)
    ensures !shouldSetDefaultValues ==> r == Unset
    ensures shouldSetDefaultValues ==> r.masterUrl == Some(DEFAULT_MASTER_URL) && r.apiVersion == Some("v1")
  {
    if shouldSetDefaultValues then
      Unset.(
        masterUrl := Some(DEFAULT_MASTER_URL),
        apiVersion := Some("v1"),
        defaultNamespace := Some(true),
        trustCerts := Some(false),
        disableHostnameVerification := Some(false),
        onlyHttpWatches := Some(false),
        http2Disable := Some(false),
        clientKeyAlgo := Some("RSA"),
        clientKeyPassphrase := Some(DEFAULT_CLIENT_KEY_PASSPHRASE),
        websocketPingInterval := Some(DEFAULT_WEBSOCKET_PING_INTERVAL),
        connectionTimeout := Some(DEFAULT_CONNECTION_TIMEOUT),
        maxConcurrentRequests := Some(DEFAULT_MAX_CONCURRENT_REQUESTS),
        maxConcurrentRequestsPerHost := Some(DEFAULT_MAX_CONCURRENT_REQUESTS_PER_HOST),
        contexts := Some([]),
        userAgent := Some("fabric8-kubernetes-client/" + w.clientVersion),
        tlsVersions := Some([TLS_1_3, TLS_1_2]),
        requestConfig := DefaultRequestConfig)
    else Unset
  }

  // ---------------------------------------------------------------------------
  // Auto-configuration (Config.java:263-283)
  // ---------------------------------------------------------------------------

  /** `disableAutoConfig`. */
  predicate DisableAutoConfig(w: World) {
    LookupBool(w, DISABLE_AUTO_CONFIG, false)
  }

  /** The kubeconfig files when there are any, the service-account files otherwise. */
  function AutoDiscover(c: ConfigData, context: Option<string>, w: World): (r: ConfigData)
    ensures |FindKubeConfigFiles(w)| > 0 ==> r == w.merge(c, context, FindKubeConfigFiles(w))
    ensures |FindKubeConfigFiles(w)| == 0 ==> r == TryNamespaceFromPath(TryServiceAccount(c, w).0, w).0
  {
    var kubeConfigFiles := FindKubeConfigFiles(w);
    if |kubeConfigFiles| > 0 then w.merge(c, context, kubeConfigFiles)
    else
      var serviceAccount := TryServiceAccount(c, w).0;
      TryNamespaceFromPath(serviceAccount, w).0
  }

  /**
   * `postAutoConfigure`: the probe, then the master URL normalised once more.
   * The probe has already normalised it, so the second pass changes nothing.
   */
  function PostAutoConfigure(c: ConfigData, w: World): (r: ConfigData)
    requires ProbeDefined(c, w)
    ensures r == ConfigFromSysPropsOrEnvVars(c, w)
  {
    var probed := ConfigFromSysPropsOrEnvVars(c, w);
    var withScheme := probed.(masterUrl := Some(EnsureHttps(probed.masterUrl.value, w.httpsAvailable(probed))));
    NormalizeOfNormalized(probed.masterUrl.value, w.httpsAvailable(probed));
    withScheme.(masterUrl := Some(EnsureEndsWithSlash(withScheme.masterUrl.value)))
  }

  predicate AutoConfigureDefined(c: ConfigData, context: Option<string>, w: World) {
    ProbeDefined(AutoDiscover(c, context, w), w)
  }

  /** `autoConfigure(config, context)`. */
  function AutoConfigure(c: ConfigData, context: Option<string>, w: World): (r: ConfigData)
    requires AutoConfigureDefined(c, context, w)
    ensures r.autoConfigure == Some(true)
    ensures r.masterUrl.Some? && IsNormalized(r.masterUrl.value)
    ensures r.oauthToken == AutoDiscover(c, context, w).oauthToken
  {
    PostAutoConfigure(AutoDiscover(c, context, w), w).(autoConfigure := Some(true))
  }

  /** Without kubeconfig files, auto-configuration never touches an explicitly given OAuth token. */
  lemma AutoConfigureKeepsOAuthToken(c: ConfigData, context: Option<string>, w: World)
    requires AutoConfigureDefined(c, context, w)
    requires |FindKubeConfigFiles(w)| == 0
    ensures AutoConfigure(c, context, w).oauthToken == c.oauthToken
  {
  }

  // ---------------------------------------------------------------------------
  // Explicit arguments (Config.java:431-568)
  // ---------------------------------------------------------------------------

  /** A string argument wins when it is neither null nor empty. */
  function PickText(argument: Option<string>, current: Option<string>): (r: Option<string>)
    ensures NotNullOrEmpty(argument) ==> r == argument
    ensures !NotNullOrEmpty(argument) ==> r == current
  {
    if NotNullOrEmpty(argument) then argument else current
  }

  /** A boxed argument wins when it is not null. */
  function PickSet<T>(argument: Option<T>, current: Option<T>): (r: Option<T>)
    ensures argument.Some? ==> r == argument
    ensures argument.None? ==> r == current
  {
    if argument.Some? then argument else current
  }

  /** An array or list argument wins when it is neither null nor empty. */
  function PickList<T>(argument: Option<seq<T>>, current: Option<seq<T>>): (r: Option<seq<T>>)
    ensures NotNullOrEmptySeq(argument) ==> r == argument
    ensures !NotNullOrEmptySeq(argument) ==> r == current
  {
    if NotNullOrEmptySeq(argument) then argument else current
  }

  /** A map argument wins when it is neither null nor empty. */
  function PickMap<K, V>(argument: Option<map<K, V>>, current: Option<map<K, V>>): (r: Option<map<K, V>>)
    ensures NotNullOrEmptyMap(argument) ==> r == argument
    ensures !NotNullOrEmptyMap(argument) ==> r == current
  {
    if NotNullOrEmptyMap(argument) then argument else current
  }

  /** A `Boolean` flag argument can only switch the flag on. */
  function PickTrue(argument: Option<bool>, current: Option<bool>): (r: Option<bool>)
    ensures argument == Some(true) ==> r == Some(true)
    ensures argument != Some(true) ==> r == current
  {
    if argument == Some(true) then Some(true) else current
  }

  /** Connection, identity and credential arguments (Config.java:431-478). */
  function ApplyIdentityArguments(c: ConfigData, a: ConfigArgs): (r: ConfigData)
    ensures r == c.(apiVersion := r.apiVersion, masterUrl := r.masterUrl, namespace := r.namespace,
                    trustCerts := r.trustCerts,
                    disableHostnameVerification := r.disableHostnameVerification,
                    caCertFile := r.caCertFile, caCertData := r.caCertData,
                    clientCertFile := r.clientCertFile, clientCertData := r.clientCertData,
                    clientKeyFile := r.clientKeyFile, clientKeyData := r.clientKeyData,
                    clientKeyAlgo := r.clientKeyAlgo, clientKeyPassphrase := r.clientKeyPassphrase,
                    username := r.username, password := r.password, oauthToken := r.oauthToken)
  {
    c.(
      apiVersion := PickText(a.apiVersion, c.apiVersion),
      masterUrl := PickText(a.masterUrl, c.masterUrl),
      namespace := PickText(a.namespace, c.namespace),
      trustCerts := PickTrue(a.trustCerts, c.trustCerts),
      disableHostnameVerification := PickTrue(a.disableHostnameVerification, c.disableHostnameVerification),
      caCertFile := PickText(a.caCertFile, c.caCertFile),
      caCertData := PickText(a.caCertData, c.caCertData),
      clientCertFile := PickText(a.clientCertFile, c.clientCertFile),
      clientCertData := PickText(a.clientCertData, c.clientCertData),
      clientKeyFile := PickText(a.clientKeyFile, c.clientKeyFile),
      clientKeyData := PickText(a.clientKeyData, c.clientKeyData),
      clientKeyAlgo := PickText(a.clientKeyAlgo, c.clientKeyAlgo),
      clientKeyPassphrase := PickText(a.clientKeyPassphrase, c.clientKeyPassphrase),
      username := PickText(a.username, c.username),
      password := PickText(a.password, c.password),
      oauthToken := PickText(a.oauthToken, c.oauthToken))
  }

  /** Timing, retry and impersonation arguments (Config.java:479-517). */
  function ApplyTimingArguments(c: ConfigData, a: ConfigArgs): (r: ConfigData)
    ensures r == c.(websocketPingInterval := r.websocketPingInterval, connectionTimeout := r.connectionTimeout,
                    requestConfig := r.requestConfig)
  {
    var rc := c.requestConfig;
    c.(
      websocketPingInterval := PickSet(a.websocketPingInterval, c.websocketPingInterval),
      connectionTimeout := PickSet(a.connectionTimeout, c.connectionTimeout),
      requestConfig := rc.(
        watchReconnectLimit := PickSet(a.watchReconnectLimit, rc.watchReconnectLimit),
        watchReconnectInterval := PickSet(a.watchReconnectInterval, rc.watchReconnectInterval),
        requestTimeout := PickSet(a.requestTimeout, rc.requestTimeout),
        scaleTimeout := PickSet(a.scaleTimeout, rc.scaleTimeout),
        loggingInterval := PickSet(a.loggingInterval, rc.loggingInterval),
        requestRetryBackoffLimit := PickSet(a.requestRetryBackoffLimit, rc.requestRetryBackoffLimit),
        requestRetryBackoffInterval := PickSet(a.requestRetryBackoffInterval, rc.requestRetryBackoffInterval),
        uploadRequestTimeout := PickSet(a.uploadRequestTimeout, rc.uploadRequestTimeout),
        impersonateUsername := PickText(a.impersonateUsername, rc.impersonateUsername),
        impersonateGroups := PickList(a.impersonateGroups, rc.impersonateGroups),
        impersonateExtras := PickMap(a.impersonateExtras, rc.impersonateExtras)))
  }

  /** Network, store, concurrency and context arguments (Config.java:518-568). */
  function ApplyNetworkArguments(c: ConfigData, a: ConfigArgs): (r: ConfigData)
    ensures r == c.(http2Disable := r.http2Disable, httpProxy := r.httpProxy, httpsProxy := r.httpsProxy,
                    noProxy := r.noProxy, proxyUsername := r.proxyUsername,
                    proxyPassword := r.proxyPassword, userAgent := r.userAgent,
                    tlsVersions := r.tlsVersions, trustStoreFile := r.trustStoreFile,
                    trustStorePassphrase := r.trustStorePassphrase, keyStoreFile := r.keyStoreFile,
                    keyStorePassphrase := r.keyStorePassphrase,
                    maxConcurrentRequests := r.maxConcurrentRequests,
                    maxConcurrentRequestsPerHost := r.maxConcurrentRequestsPerHost,
                    autoOAuthToken := r.autoOAuthToken, contexts := r.contexts,
                    currentContext := r.currentContext)
  {
    ApplyStoreArguments(ApplyProxyArguments(c, a), a)
  }

  /** HTTP/2, proxy, user-agent and TLS-version arguments (Config.java:518-541). */
  function ApplyProxyArguments(c: ConfigData, a: ConfigArgs): (r: ConfigData)
    ensures r == c.(http2Disable := r.http2Disable, httpProxy := r.httpProxy, httpsProxy := r.httpsProxy,
                    noProxy := r.noProxy, proxyUsername := r.proxyUsername,
                    proxyPassword := r.proxyPassword, userAgent := r.userAgent,
                    tlsVersions := r.tlsVersions)
  {
    c.(
      http2Disable := PickSet(a.http2Disable, c.http2Disable),
      httpProxy := PickText(a.httpProxy, c.httpProxy),
      httpsProxy := PickText(a.httpsProxy, c.httpsProxy),
      noProxy := PickList(a.noProxy, c.noProxy),
      proxyUsername := PickText(a.proxyUsername, c.proxyUsername),
      proxyPassword := PickText(a.proxyPassword, c.proxyPassword),
      userAgent := PickText(a.userAgent, c.userAgent),
      tlsVersions := PickList(a.tlsVersions, c.tlsVersions))
  }

  /** Trust and key store, concurrency, token and context arguments (Config.java:542-568). */
  function ApplyStoreArguments(c: ConfigData, a: ConfigArgs): (r: ConfigData)
    ensures r == c.(trustStoreFile := r.trustStoreFile, trustStorePassphrase := r.trustStorePassphrase,
                    keyStoreFile := r.keyStoreFile, keyStorePassphrase := r.keyStorePassphrase,
                    maxConcurrentRequests := r.maxConcurrentRequests,
                    maxConcurrentRequestsPerHost := r.maxConcurrentRequestsPerHost,
                    autoOAuthToken := r.autoOAuthToken, contexts := r.contexts,
                    currentContext := r.currentContext)
  {
    c.(
      trustStoreFile := PickText(a.trustStoreFile, c.trustStoreFile),
      trustStorePassphrase := PickText(a.trustStorePassphrase, c.trustStorePassphrase),
      keyStoreFile := PickText(a.keyStoreFile, c.keyStoreFile),
      keyStorePassphrase := PickText(a.keyStorePassphrase, c.keyStorePassphrase),
      maxConcurrentRequests := PickSet(a.maxConcurrentRequests, c.maxConcurrentRequests),
      maxConcurrentRequestsPerHost := PickSet(a.maxConcurrentRequestsPerHost, c.maxConcurrentRequestsPerHost),
      autoOAuthToken := PickText(a.autoOAuthToken, c.autoOAuthToken),
      contexts := PickList(a.contexts, c.contexts),
      currentContext := PickSet(a.currentContext, c.currentContext))
  }

  /** All guarded arguments, in source order; the fields no argument guards are left alone. */
  function ApplyArguments(c: ConfigData, a: ConfigArgs): (r: ConfigData)
    ensures r.defaultNamespace == c.defaultNamespace && r.authProvider == c.authProvider
    ensures r.oauthTokenProvider == c.oauthTokenProvider && r.customHeaders == c.customHeaders
    ensures r.onlyHttpWatches == c.onlyHttpWatches && r.autoConfigure == c.autoConfigure
  {
    ApplyNetworkArguments(ApplyTimingArguments(ApplyIdentityArguments(c, a), a), a)
  }

  // ---------------------------------------------------------------------------
  // The constructor (Config.java:382-576)
  // ---------------------------------------------------------------------------

  /** Auto-configuration, when asked for, completes without an exception. */
  predicate ConstructDefined(a: ConfigArgs, shouldSetDefaultValues: bool, w: World) {
    a.autoConfigure == Some(true) ==> AutoConfigureDefined(Defaults(shouldSetDefaultValues, w), None, w)
  }

  /** The fields just before the explicit arguments are applied: defaults, then auto-configuration. */
  function BeforeArguments(autoConfigure: Option<bool>, shouldSetDefaultValues: bool, w: World): ConfigData
    requires autoConfigure == Some(true) ==> AutoConfigureDefined(Defaults(shouldSetDefaultValues, w), None, w)
  {
    var defaults := Defaults(shouldSetDefaultValues, w);
    if autoConfigure == Some(true) then AutoConfigure(defaults, None, w) else defaults
  }

  /** A non-empty master URL is normalised, using the configuration it belongs to for the HTTPS check. */
  function NormalizeMasterUrl(c: ConfigData, w: World): (r: ConfigData)
    ensures r == c.(masterUrl := r.masterUrl)
    ensures NotNullOrEmpty(c.masterUrl) ==> r.masterUrl.Some? && IsNormalized(r.masterUrl.value)
    ensures NotNullOrEmpty(c.masterUrl) && HasScheme(c.masterUrl.value) ==>
            r.masterUrl == Some(EnsureEndsWithSlash(c.masterUrl.value))
    ensures !NotNullOrEmpty(c.masterUrl) ==> r == c
  {
    if NotNullOrEmpty(c.masterUrl) then c.(masterUrl := Some(Normalize(c.masterUrl.value, w.httpsAvailable(c))))
    else c
  }

  /**
   * What the constructor does once defaults and auto-configuration have run
   * (Config.java:431-575): the explicit arguments, the normalisation of a
   * non-empty master URL, and the four fields that are copied unconditionally.
   */
  function ApplyExplicit(before: ConfigData, a: ConfigArgs, w: World): (r: ConfigData)
    ensures r == ApplyArguments(before, a).(masterUrl := r.masterUrl, autoConfigure := a.autoConfigure,
                                            oauthTokenProvider := a.oauthTokenProvider,
                                            customHeaders := a.customHeaders, onlyHttpWatches := a.onlyHttpWatches)
  {
    NormalizeMasterUrl(ApplyArguments(before, a), w).(
      autoConfigure := a.autoConfigure,
      oauthTokenProvider := a.oauthTokenProvider,
      customHeaders := a.customHeaders,
      onlyHttpWatches := a.onlyHttpWatches)
  }

  /** The constructor: defaults, auto-configuration, then everything `ApplyExplicit` does. */
  function Construct(a: ConfigArgs, shouldSetDefaultValues: bool, w: World): ConfigData
    requires ConstructDefined(a, shouldSetDefaultValues, w)
  {
    ApplyExplicit(BeforeArguments(a.autoConfigure, shouldSetDefaultValues, w), a, w)
  }

  /**
   * Explicit arguments win over whatever defaults and auto-configuration
   * produced: each of the 44 guarded arguments other than the two flags
   * replaces its field when it is a non-empty string, array, list or map, or
   * a non-null number, context or `Boolean`.
   */
  lemma ExplicitArgumentsWin(c: ConfigData, a: ConfigArgs)
    ensures var r := ApplyArguments(c, a);
      (NotNullOrEmpty(a.apiVersion) ==> r.apiVersion == a.apiVersion) &&
      (NotNullOrEmpty(a.masterUrl) ==> r.masterUrl == a.masterUrl) &&
      (NotNullOrEmpty(a.namespace) ==> r.namespace == a.namespace) &&
      (NotNullOrEmpty(a.caCertFile) ==> r.caCertFile == a.caCertFile) &&
      (NotNullOrEmpty(a.caCertData) ==> r.caCertData == a.caCertData) &&
      (NotNullOrEmpty(a.clientCertFile) ==> r.clientCertFile == a.clientCertFile) &&
      (NotNullOrEmpty(a.clientCertData) ==> r.clientCertData == a.clientCertData) &&
      (NotNullOrEmpty(a.clientKeyFile) ==> r.clientKeyFile == a.clientKeyFile) &&
      (NotNullOrEmpty(a.clientKeyData) ==> r.clientKeyData == a.clientKeyData) &&
      (NotNullOrEmpty(a.clientKeyAlgo) ==> r.clientKeyAlgo == a.clientKeyAlgo) &&
      (NotNullOrEmpty(a.clientKeyPassphrase) ==> r.clientKeyPassphrase == a.clientKeyPassphrase) &&
      (NotNullOrEmpty(a.username) ==> r.username == a.username) &&
      (NotNullOrEmpty(a.password) ==> r.password == a.password) &&
      (NotNullOrEmpty(a.oauthToken) ==> r.oauthToken == a.oauthToken) &&
      (a.websocketPingInterval.Some? ==> r.websocketPingInterval == a.websocketPingInterval) &&
      (a.connectionTimeout.Some? ==> r.connectionTimeout == a.connectionTimeout) &&
      (a.watchReconnectLimit.Some? ==> r.requestConfig.watchReconnectLimit == a.watchReconnectLimit) &&
      (a.watchReconnectInterval.Some? ==> r.requestConfig.watchReconnectInterval == a.watchReconnectInterval) &&
      (a.requestTimeout.Some? ==> r.requestConfig.requestTimeout == a.requestTimeout) &&
      (a.scaleTimeout.Some? ==> r.requestConfig.scaleTimeout == a.scaleTimeout) &&
      (a.loggingInterval.Some? ==> r.requestConfig.loggingInterval == a.loggingInterval) &&
      (a.requestRetryBackoffLimit.Some? ==> r.requestConfig.requestRetryBackoffLimit == a.requestRetryBackoffLimit) &&
      (a.requestRetryBackoffInterval.Some? ==> r.requestConfig.requestRetryBackoffInterval == a.requestRetryBackoffInterval) &&
      (a.uploadRequestTimeout.Some? ==> r.requestConfig.uploadRequestTimeout == a.uploadRequestTimeout) &&
      (NotNullOrEmpty(a.impersonateUsername) ==> r.requestConfig.impersonateUsername == a.impersonateUsername) &&
      (NotNullOrEmptySeq(a.impersonateGroups) ==> r.requestConfig.impersonateGroups == a.impersonateGroups) &&
      (NotNullOrEmptyMap(a.impersonateExtras) ==> r.requestConfig.impersonateExtras == a.impersonateExtras) &&
      (a.http2Disable.Some? ==> r.http2Disable == a.http2Disable) &&
      (NotNullOrEmpty(a.httpProxy) ==> r.httpProxy == a.httpProxy) &&
      (NotNullOrEmpty(a.httpsProxy) ==> r.httpsProxy == a.httpsProxy) &&
      (NotNullOrEmptySeq(a.noProxy) ==> r.noProxy == a.noProxy) &&
      (NotNullOrEmpty(a.proxyUsername) ==> r.proxyUsername == a.proxyUsername) &&
      (NotNullOrEmpty(a.proxyPassword) ==> r.proxyPassword == a.proxyPassword) &&
      (NotNullOrEmpty(a.userAgent) ==> r.userAgent == a.userAgent) &&
      (NotNullOrEmptySeq(a.tlsVersions) ==> r.tlsVersions == a.tlsVersions) &&
      (NotNullOrEmpty(a.trustStoreFile) ==> r.trustStoreFile == a.trustStoreFile) &&
      (NotNullOrEmpty(a.trustStorePassphrase) ==> r.trustStorePassphrase == a.trustStorePassphrase) &&
      (NotNullOrEmpty(a.keyStoreFile) ==> r.keyStoreFile == a.keyStoreFile) &&
      (NotNullOrEmpty(a.keyStorePassphrase) ==> r.keyStorePassphrase == a.keyStorePassphrase) &&
      (a.maxConcurrentRequests.Some? ==> r.maxConcurrentRequests == a.maxConcurrentRequests) &&
      (a.maxConcurrentRequestsPerHost.Some? ==> r.maxConcurrentRequestsPerHost == a.maxConcurrentRequestsPerHost) &&
      (NotNullOrEmpty(a.autoOAuthToken) ==> r.autoOAuthToken == a.autoOAuthToken) &&
      (NotNullOrEmptySeq(a.contexts) ==> r.contexts == a.contexts) &&
      (a.currentContext.Some? ==> r.currentContext == a.currentContext)
  {
  }

  /**
   * Absent arguments (null, or an empty string, array, list or map) leave the
   * value that defaults and auto-configuration chose, for the same 44 fields.
   */
  lemma AbsentArgumentsKeepResolvedValues(c: ConfigData, a: ConfigArgs)
    ensures var r := ApplyArguments(c, a);
      (!NotNullOrEmpty(a.apiVersion) ==> r.apiVersion == c.apiVersion) &&
      (!NotNullOrEmpty(a.masterUrl) ==> r.masterUrl == c.masterUrl) &&
      (!NotNullOrEmpty(a.namespace) ==> r.namespace == c.namespace) &&
      (!NotNullOrEmpty(a.caCertFile) ==> r.caCertFile == c.caCertFile) &&
      (!NotNullOrEmpty(a.caCertData) ==> r.caCertData == c.caCertData) &&
      (!NotNullOrEmpty(a.clientCertFile) ==> r.clientCertFile == c.clientCertFile) &&
      (!NotNullOrEmpty(a.clientCertData) ==> r.clientCertData == c.clientCertData) &&
      (!NotNullOrEmpty(a.clientKeyFile) ==> r.clientKeyFile == c.clientKeyFile) &&
      (!NotNullOrEmpty(a.clientKeyData) ==> r.clientKeyData == c.clientKeyData) &&
      (!NotNullOrEmpty(a.clientKeyAlgo) ==> r.clientKeyAlgo == c.clientKeyAlgo) &&
      (!NotNullOrEmpty(a.clientKeyPassphrase) ==> r.clientKeyPassphrase == c.clientKeyPassphrase) &&
      (!NotNullOrEmpty(a.username) ==> r.username == c.username) &&
      (!NotNullOrEmpty(a.password) ==> r.password == c.password) &&
      (!NotNullOrEmpty(a.oauthToken) ==> r.oauthToken == c.oauthToken) &&
      (a.websocketPingInterval.None? ==> r.websocketPingInterval == c.websocketPingInterval) &&
      (a.connectionTimeout.None? ==> r.connectionTimeout == c.connectionTimeout) &&
      (a.watchReconnectLimit.None? ==> r.requestConfig.watchReconnectLimit == c.requestConfig.watchReconnectLimit) &&
      (a.watchReconnectInterval.None? ==> r.requestConfig.watchReconnectInterval == c.requestConfig.watchReconnectInterval) &&
      (a.requestTimeout.None? ==> r.requestConfig.requestTimeout == c.requestConfig.requestTimeout) &&
      (a.scaleTimeout.None? ==> r.requestConfig.scaleTimeout == c.requestConfig.scaleTimeout) &&
      (a.loggingInterval.None? ==> r.requestConfig.loggingInterval == c.requestConfig.loggingInterval) &&
      (a.requestRetryBackoffLimit.None? ==> r.requestConfig.requestRetryBackoffLimit == c.requestConfig.requestRetryBackoffLimit) &&
      (a.requestRetryBackoffInterval.None? ==> r.requestConfig.requestRetryBackoffInterval == c.requestConfig.requestRetryBackoffInterval) &&
      (a.uploadRequestTimeout.None? ==> r.requestConfig.uploadRequestTimeout == c.requestConfig.uploadRequestTimeout) &&
      (!NotNullOrEmpty(a.impersonateUsername) ==> r.requestConfig.impersonateUsername == c.requestConfig.impersonateUsername) &&
      (!NotNullOrEmptySeq(a.impersonateGroups) ==> r.requestConfig.impersonateGroups == c.requestConfig.impersonateGroups) &&
      (!NotNullOrEmptyMap(a.impersonateExtras) ==> r.requestConfig.impersonateExtras == c.requestConfig.impersonateExtras) &&
      (a.http2Disable.None? ==> r.http2Disable == c.http2Disable) &&
      (!NotNullOrEmpty(a.httpProxy) ==> r.httpProxy == c.httpProxy) &&
      (!NotNullOrEmpty(a.httpsProxy) ==> r.httpsProxy == c.httpsProxy) &&
      (!NotNullOrEmptySeq(a.noProxy) ==> r.noProxy == c.noProxy) &&
      (!NotNullOrEmpty(a.proxyUsername) ==> r.proxyUsername == c.proxyUsername) &&
      (!NotNullOrEmpty(a.proxyPassword) ==> r.proxyPassword == c.proxyPassword) &&
      (!NotNullOrEmpty(a.userAgent) ==> r.userAgent == c.userAgent) &&
      (!NotNullOrEmptySeq(a.tlsVersions) ==> r.tlsVersions == c.tlsVersions) &&
      (!NotNullOrEmpty(a.trustStoreFile) ==> r.trustStoreFile == c.trustStoreFile) &&
      (!NotNullOrEmpty(a.trustStorePassphrase) ==> r.trustStorePassphrase == c.trustStorePassphrase) &&
      (!NotNullOrEmpty(a.keyStoreFile) ==> r.keyStoreFile == c.keyStoreFile) &&
      (!NotNullOrEmpty(a.keyStorePassphrase) ==> r.keyStorePassphrase == c.keyStorePassphrase) &&
      (a.maxConcurrentRequests.None? ==> r.maxConcurrentRequests == c.maxConcurrentRequests) &&
      (a.maxConcurrentRequestsPerHost.None? ==> r.maxConcurrentRequestsPerHost == c.maxConcurrentRequestsPerHost) &&
      (!NotNullOrEmpty(a.autoOAuthToken) ==> r.autoOAuthToken == c.autoOAuthToken) &&
      (!NotNullOrEmptySeq(a.contexts) ==> r.contexts == c.contexts) &&
      (a.currentContext.None? ==> r.currentContext == c.currentContext)
  {
  }

  /**
   * `trustCerts` and `disableHostnameVerification` only ever switch to true:
   * an explicit false (or null) keeps the value auto-configuration chose, so
   * it never clears a true.
   */
  lemma FlagsOnlySwitchOn(c: ConfigData, a: ConfigArgs)
    ensures var r := ApplyArguments(c, a);
      (a.trustCerts == Some(true) ==> r.trustCerts == Some(true)) &&
      (a.trustCerts != Some(true) ==> r.trustCerts == c.trustCerts) &&
      (a.disableHostnameVerification == Some(true) ==> r.disableHostnameVerification == Some(true)) &&
      (a.disableHostnameVerification != Some(true) ==> r.disableHostnameVerification == c.disableHostnameVerification) &&
      (c.trustCerts == Some(true) ==> r.trustCerts == Some(true)) &&
      (c.disableHostnameVerification == Some(true) ==> r.disableHostnameVerification == Some(true))
  {
  }

  /** An explicit master URL wins too, normalised against the configuration it lands in. */
  lemma ExplicitMasterUrlWins(before: ConfigData, a: ConfigArgs, w: World)
    requires NotNullOrEmpty(a.masterUrl)
    ensures ApplyExplicit(before, a, w).masterUrl ==
            Some(Normalize(a.masterUrl.value, w.httpsAvailable(ApplyArguments(before, a))))
  {
    ExplicitArgumentsWin(before, a);
  }

  /** A master URL present before the explicit arguments is still there, normalised, afterwards. */
  lemma ExplicitKeepsMasterUrl(before: ConfigData, a: ConfigArgs, w: World)
    requires NotNullOrEmpty(before.masterUrl)
    ensures ApplyExplicit(before, a, w).masterUrl.Some? && IsNormalized(ApplyExplicit(before, a, w).masterUrl.value)
  {
    AbsentArgumentsKeepResolvedValues(before, a);
  }

  /** With defaults on, the master URL is set before the explicit arguments, auto-configured or not. */
  lemma DefaultsSetMasterUrl(autoConfigure: Option<bool>, w: World)
    requires autoConfigure == Some(true) ==> AutoConfigureDefined(Defaults(true, w), None, w)
    ensures NotNullOrEmpty(BeforeArguments(autoConfigure, true, w).masterUrl)
  {
  }

  /** With defaults on, the constructed master URL always has a scheme and a trailing slash. */
  lemma ConstructNormalizesMasterUrl(a: ConfigArgs, w: World)
    requires ConstructDefined(a, true, w)
    ensures Construct(a, true, w).masterUrl.Some? && IsNormalized(Construct(a, true, w).masterUrl.value)
  {
    DefaultsSetMasterUrl(a.autoConfigure, w);
    ExplicitKeepsMasterUrl(BeforeArguments(a.autoConfigure, true, w), a, w);
  }

  // ---------------------------------------------------------------------------
  // Factories
  // ---------------------------------------------------------------------------

  /**
   * `empty()`, i.e. `new Config(false)`: the compiled-in defaults, with the
   * master URL given its trailing slash and `onlyHttpWatches` reset to null
   * by the constructor's last argument.
   */
  function Empty(w: World): (r: ConfigData)
    ensures r.masterUrl == Some("https://kubernetes.default.svc/")
    ensures r.apiVersion == Some("v1") && r.namespace.None?
    ensures r.autoConfigure == Some(false) && r.onlyHttpWatches.None?
    ensures r.requestConfig.scaleTimeout == Some(DEFAULT_SCALE_TIMEOUT)
    ensures r.tlsVersions == Some([TLS_1_3, TLS_1_2])
  {
    assert DEFAULT_MASTER_URL + "/" == "https://kubernetes.default.svc/";
    Defaults(true, w).(masterUrl := Some(DEFAULT_MASTER_URL + "/"), autoConfigure := Some(false), onlyHttpWatches := None)
  }

  /** `empty()` is exactly the constructor run with no arguments and auto-configuration off. */
  lemma EmptyIsConstructedWithoutArguments(w: World)
    ensures Construct(NoArgs(false), true, w) == Empty(w)
  {
    var defaults := Defaults(true, w);
    NoArgumentsChangeNothing(defaults, false);
    assert BeforeArguments(Some(false), true, w) == defaults;
    DefaultMasterUrlHasScheme();
    NormalizeWithScheme(DEFAULT_MASTER_URL, w.httpsAvailable(defaults));
  }

  /** Applying the arguments of `Config(boolean)`, all null, changes nothing. */
  lemma NoArgumentsChangeNothing(c: ConfigData, autoConfigure: bool)
    ensures ApplyArguments(c, NoArgs(autoConfigure)) == c
  {
    var a := NoArgs(autoConfigure);
    assert ApplyIdentityArguments(c, a) == c;
    assert ApplyTimingArguments(c, a) == c;
    assert ApplyNetworkArguments(c, a) == c;
  }

  lemma DefaultMasterUrlHasScheme()
    ensures HasScheme(DEFAULT_MASTER_URL) && !EndsWith(DEFAULT_MASTER_URL, "/")
  {
    assert DEFAULT_MASTER_URL == HTTPS_PROTOCOL_PREFIX + "kubernetes.default.svc";
    PrefixedHasScheme(HTTPS_PROTOCOL_PREFIX, "kubernetes.default.svc");
    assert DEFAULT_MASTER_URL[|DEFAULT_MASTER_URL| - 1..] == "c";
  }

  /** `autoConfigure(context)`: an empty configuration, auto-configured. */
  function AutoConfigureFresh(context: Option<string>, w: World): (r: ConfigData)
    requires AutoConfigureDefined(Empty(w), context, w)
    ensures r.autoConfigure == Some(true)
    ensures r.masterUrl.Some? && IsNormalized(r.masterUrl.value)
  {
    AutoConfigure(Empty(w), context, w)
  }

  /** `fromKubeconfig(context, file)`: an empty configuration merged with one kubeconfig file. */
  function FromKubeconfig(context: Option<string>, file: string, w: World): ConfigData {
    w.merge(Empty(w), context, [file])
  }

  // ---------------------------------------------------------------------------
  // refresh (Config.java:820-841)
  // ---------------------------------------------------------------------------

  datatype RefreshOutcome = Unchanged | Replaced(config: ConfigData)

  /** The name of the current context, or null. */
  function CurrentContextName(c: ConfigData): Option<string> {
    if c.currentContext.Some? then c.currentContext.value.name else None
  }

  /** The backing kubeconfig file, when it can be read. */
  function ReadableBackingFile(c: ConfigData, w: World): Option<string> {
    match w.fileForContext(c.currentContext)
    case Some(f) => if f in w.fileContents then Some(f) else None
    case None => None
  }

  /**
   * `refresh` completes without an exception: the `autoConfigure` flag it
   * unboxes is set, and whatever it rebuilds can be probed.
   */
  predicate RefreshDefined(c: ConfigData, w: World) {
    !NotNullOrEmpty(c.oauthToken) ==>
      c.autoConfigure.Some? &&
      (c.autoConfigure.value ==> AutoConfigureDefined(Empty(w), CurrentContextName(c), w)) &&
      (!c.autoConfigure.value && ReadableBackingFile(c, w).Some? && !DisableAutoConfig(w) ==>
         ProbeDefined(FromKubeconfig(CurrentContextName(c), ReadableBackingFile(c, w).value, w), w))
  }

  /**
   * `refresh`: a config holding an explicit OAuth token is kept; an
   * auto-configured one is rebuilt by auto-configuration; one read from a
   * kubeconfig is re-read from that file when it is still readable; any other
   * is kept.
   */
  function Refresh(c: ConfigData, w: World): (r: RefreshOutcome)
    requires RefreshDefined(c, w)
    ensures NotNullOrEmpty(c.oauthToken) ==> r == Unchanged
    ensures !NotNullOrEmpty(c.oauthToken) && c.autoConfigure == Some(true) ==>
            r == Replaced(AutoConfigureFresh(CurrentContextName(c), w))
    ensures !NotNullOrEmpty(c.oauthToken) && c.autoConfigure == Some(false) && ReadableBackingFile(c, w).None? ==>
            r == Unchanged
    ensures !NotNullOrEmpty(c.oauthToken) && c.autoConfigure == Some(false) && ReadableBackingFile(c, w).Some? ==>
            r.Replaced? &&
            r.config == (var reread := FromKubeconfig(CurrentContextName(c), ReadableBackingFile(c, w).value, w);
                         if DisableAutoConfig(w) then reread else PostAutoConfigure(reread, w))
  {
    var currentContextName := CurrentContextName(c);
    if NotNullOrEmpty(c.oauthToken) then Unchanged
    else if c.autoConfigure.value then Replaced(AutoConfigureFresh(currentContextName, w))
    else match w.fileForContext(c.currentContext)
      case Some(file) =>
        if file !in w.fileContents then Unchanged
        else
          var refreshed := FromKubeconfig(currentContextName, file, w);
          Replaced(if DisableAutoConfig(w) then refreshed else PostAutoConfigure(refreshed, w))
      case None => Unchanged
  }

  /** An explicit OAuth token pins the instance, whatever the automatic token holds. */
  lemma RefreshKeepsExplicitToken(c: ConfigData, w: World, autoToken: Option<string>)
    requires NotNullOrEmpty(c.oauthToken)
    ensures RefreshDefined(c.(autoOAuthToken := autoToken), w)
    ensures Refresh(c.(autoOAuthToken := autoToken), w) == Unchanged
  {
  }

  /**
   * What `refresh` rebuilds has a normalised master URL, except a kubeconfig
   * re-read while auto-configuration is disabled.
   */
  lemma RefreshedUrlIsNormalized(c: ConfigData, w: World)
    requires RefreshDefined(c, w)
    requires Refresh(c, w).Replaced?
    requires !(c.autoConfigure == Some(false) && DisableAutoConfig(w))
    ensures Refresh(c, w).config.masterUrl.Some? && IsNormalized(Refresh(c, w).config.masterUrl.value)
  {
  }
}
