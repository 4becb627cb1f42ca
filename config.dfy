/**
 * The `Config` object itself, whose fields the constructor, the environment
 * probe, the in-cluster fallback and auto-configuration update in place, in
 * the order Config.java assigns them. Each method is proved against the
 * function of the same name in `Urls`, `Discovery`, `Probe` or `Resolve`,
 * where the properties of that function are proved.
 *
 * The forty-two state-holding fields of Config.java are kept in the class
 * grouped into a few records (the server endpoint, the TLS material, the
 * credentials, the client limits, the network settings); `Data()` reads them
 * all back as one `ConfigData` value. The eleven builder-only copies of the request settings
 * (Config.java:187-203) are not kept: no getter reads them, every one reads
 * the request configuration instead.
 */
module Client {
  import opened Wrappers
  import opened Text
  import opened Model
  import opened Urls
  import opened Keys
  import opened Discovery
  import opened Probe
  import opened Resolve

  datatype Endpoint = Endpoint(
    trustCerts: Option<bool>,
    disableHostnameVerification: Option<bool>,
    masterUrl: Option<string>,
    apiVersion: Option<string>,
    namespace: Option<string>,
    defaultNamespace: Option<bool>)

  datatype TlsMaterial = TlsMaterial(
    caCertFile: Option<string>,
    caCertData: Option<string>,
    clientCertFile: Option<string>,
    clientCertData: Option<string>,
    clientKeyFile: Option<string>,
    clientKeyData: Option<string>,
    clientKeyAlgo: Option<string>,
    clientKeyPassphrase: Option<string>,
    trustStoreFile: Option<string>,
    trustStorePassphrase: Option<string>,
    keyStoreFile: Option<string>,
    keyStorePassphrase: Option<string>)

  datatype Credentials = Credentials(
    authProvider: Option<AuthProvider>,
    username: Option<string>,
    password: Option<string>,
    oauthToken: Option<string>,
    autoOAuthToken: Option<string>,
    oauthTokenProvider: Option<TokenProvider>)

  datatype Limits = Limits(
    websocketPingInterval: Option<int64>,
    connectionTimeout: Option<int32>,
    maxConcurrentRequests: Option<int32>,
    maxConcurrentRequestsPerHost: Option<int32>)

  datatype Network = Network(
    http2Disable: Option<bool>,
    httpProxy: Option<string>,
    httpsProxy: Option<string>,
    proxyUsername: Option<string>,
    proxyPassword: Option<string>,
    noProxy: Option<seq<string>>,
    userAgent: Option<string>,
    tlsVersions: Option<seq<TlsVersion>>)

  class Config {
    var endpoint: Endpoint
    var material: TlsMaterial
    var credentials: Credentials
    var limits: Limits
    var requestConfig: RequestConfig
    var contexts: Option<seq<NamedContext>>
    var currentContext: Option<NamedContext>
    var network: Network
    var onlyHttpWatches: Option<bool>
    var customHeaders: Option<map<string, string>>
    var autoConfigure: Option<bool>

    /** The value of every field. */
    function Data(): ConfigData
      reads this
    {
      ConfigData(
        endpoint.trustCerts,
        endpoint.disableHostnameVerification,
        endpoint.masterUrl,
        endpoint.apiVersion,
        endpoint.namespace,
        endpoint.defaultNamespace,
        material.caCertFile,
        material.caCertData,
        material.clientCertFile,
        material.clientCertData,
        material.clientKeyFile,
        material.clientKeyData,
        material.clientKeyAlgo,
        material.clientKeyPassphrase,
        material.trustStoreFile,
        material.trustStorePassphrase,
        material.keyStoreFile,
        material.keyStorePassphrase,
        credentials.authProvider,
        credentials.username,
        credentials.password,
        credentials.oauthToken,
        credentials.autoOAuthToken,
        credentials.oauthTokenProvider,
        limits.websocketPingInterval,
        limits.connectionTimeout,
        limits.maxConcurrentRequests,
        limits.maxConcurrentRequestsPerHost,
        requestConfig,
        contexts,
        currentContext,
        network.http2Disable,
        network.httpProxy,
        network.httpsProxy,
        network.proxyUsername,
        network.proxyPassword,
        network.noProxy,
        network.userAgent,
        network.tlsVersions,
        onlyHttpWatches,
        customHeaders,
        autoConfigure)
    }

    /**
     * Overwrites every field with `d`: what `KubeConfigUtils.merge`, whose
     * code is not part of this model, does to the object it is given.
     */
    method Load(d: ConfigData)
      modifies this
      ensures Data() == d
    {
      endpoint := Endpoint(d.trustCerts, d.disableHostnameVerification, d.masterUrl, d.apiVersion, d.namespace, d.defaultNamespace);
      material := TlsMaterial(d.caCertFile, d.caCertData, d.clientCertFile, d.clientCertData, d.clientKeyFile, d.clientKeyData, d.clientKeyAlgo, d.clientKeyPassphrase, d.trustStoreFile, d.trustStorePassphrase, d.keyStoreFile, d.keyStorePassphrase);
      credentials := Credentials(d.authProvider, d.username, d.password, d.oauthToken, d.autoOAuthToken, d.oauthTokenProvider);
      limits := Limits(d.websocketPingInterval, d.connectionTimeout, d.maxConcurrentRequests, d.maxConcurrentRequestsPerHost);
      requestConfig := d.requestConfig;
      contexts := d.contexts;
      currentContext := d.currentContext;
      network := Network(d.http2Disable, d.httpProxy, d.httpsProxy, d.proxyUsername, d.proxyPassword, d.noProxy, d.userAgent, d.tlsVersions);
      onlyHttpWatches := d.onlyHttpWatches;
      customHeaders := d.customHeaders;
      autoConfigure := d.autoConfigure;
    }

    /** The package-private all-arguments constructor (Config.java:382-576). */
    constructor (a: ConfigArgs, shouldSetDefaultValues: bool, w: World)
      requires ConstructDefined(a, shouldSetDefaultValues, w)
      ensures Data() == Construct(a, shouldSetDefaultValues, w)
    {
      endpoint := Endpoint(None, None, None, None, None, None);
      material := TlsMaterial(None, None, None, None, None, None, None, None, None, None, None, None);
      credentials := Credentials(None, None, None, None, None, None);
      limits := Limits(None, None, None, None);
      requestConfig := UnsetRequestConfig;
      contexts := None;
      currentContext := None;
      network := Network(None, None, None, None, None, None, None, None);
      onlyHttpWatches := None;
      customHeaders := None;
      autoConfigure := None;
      new;
      ApplyDefaultsAndAutoConfigure(a.autoConfigure, shouldSetDefaultValues, w);
      ApplyExplicit(a, w);
    }

    /** The explicit arguments, the master URL's normalisation and the last four fields (Config.java:431-575). */
    method ApplyExplicit(a: ConfigArgs, w: World)
      modifies this
      ensures Data() == Resolve.ApplyExplicit(old(Data()), a, w)
    {
      ApplyArguments(a);
      NormalizeMasterUrl(w);
      autoConfigure := a.autoConfigure;
      credentials := credentials.(oauthTokenProvider := a.oauthTokenProvider);
      customHeaders := a.customHeaders;
      onlyHttpWatches := a.onlyHttpWatches;
    }

    /** The first two phases of the constructor: default values, then auto-configuration when asked for. */
    method ApplyDefaultsAndAutoConfigure(autoConfigure: Option<bool>, shouldSetDefaultValues: bool, w: World)
      requires Data() == Unset
      requires autoConfigure == Some(true) ==> AutoConfigureDefined(Defaults(shouldSetDefaultValues, w), None, w)
      modifies this
      ensures Data() == BeforeArguments(autoConfigure, shouldSetDefaultValues, w)
    {
      if shouldSetDefaultValues {
        SetDefaultValues(w);
      }
      if autoConfigure == Some(true) {
        AutoConfigure(this, None, w);
      }
    }

    /** The default values the constructor starts from when asked to (Config.java:396-426). */
    method SetDefaultValues(w: World)
      requires Data() == Unset
      modifies this
      ensures Data() == Defaults(true, w)
    {
      endpoint := endpoint.(masterUrl := Some(DEFAULT_MASTER_URL), apiVersion := Some("v1"),
        defaultNamespace := Some(true), trustCerts := Some(false), disableHostnameVerification := Some(false));
      onlyHttpWatches := Some(false);
      network := network.(http2Disable := Some(false));
      material := material.(clientKeyAlgo := Some("RSA"), clientKeyPassphrase := Some(DEFAULT_CLIENT_KEY_PASSPHRASE));
      limits := Limits(Some(DEFAULT_WEBSOCKET_PING_INTERVAL), Some(DEFAULT_CONNECTION_TIMEOUT),
        Some(DEFAULT_MAX_CONCURRENT_REQUESTS), Some(DEFAULT_MAX_CONCURRENT_REQUESTS_PER_HOST));
      contexts := Some([]);
      network := network.(userAgent := Some("fabric8-kubernetes-client/" + w.clientVersion),
        tlsVersions := Some([TLS_1_3, TLS_1_2]));
      requestConfig := DefaultRequestConfig;
    }

    /** Every explicit argument, in the constructor's order (Config.java:431-568). */
    method ApplyArguments(a: ConfigArgs)
      modifies this
      ensures Data() == Resolve.ApplyArguments(old(Data()), a)
    {
      ApplyIdentityArguments(a);
      ApplyTimingArguments(a);
      ApplyNetworkArguments(a);
    }

    /** A non-empty master URL gets its scheme and trailing slash (Config.java:569-571). */
    method NormalizeMasterUrl(w: World)
      modifies this
      ensures Data() == Resolve.NormalizeMasterUrl(old(Data()), w)
    {
      if NotNullOrEmpty(endpoint.masterUrl) {
        var url := endpoint.masterUrl.value;
        endpoint := endpoint.(masterUrl := Some(EnsureEndsWithSlash(EnsureHttps(url, w.httpsAvailable(Data())))));
      }
    }

    /** The explicit endpoint and credential arguments (Config.java:431-478). */
    method ApplyIdentityArguments(a: ConfigArgs)
      modifies this
      ensures Data() == Resolve.ApplyIdentityArguments(old(Data()), a)
    {
      endpoint := endpoint.(apiVersion := PickText(a.apiVersion, endpoint.apiVersion));
      endpoint := endpoint.(masterUrl := PickText(a.masterUrl, endpoint.masterUrl));
      endpoint := endpoint.(namespace := PickText(a.namespace, endpoint.namespace));
      endpoint := endpoint.(trustCerts := PickTrue(a.trustCerts, endpoint.trustCerts));
      endpoint := endpoint.(disableHostnameVerification := PickTrue(a.disableHostnameVerification, endpoint.disableHostnameVerification));
      material := material.(caCertFile := PickText(a.caCertFile, material.caCertFile));
      material := material.(caCertData := PickText(a.caCertData, material.caCertData));
      material := material.(clientCertFile := PickText(a.clientCertFile, material.clientCertFile));
      material := material.(clientCertData := PickText(a.clientCertData, material.clientCertData));
      material := material.(clientKeyFile := PickText(a.clientKeyFile, material.clientKeyFile));
      material := material.(clientKeyData := PickText(a.clientKeyData, material.clientKeyData));
      material := material.(clientKeyAlgo := PickText(a.clientKeyAlgo, material.clientKeyAlgo));
      material := material.(clientKeyPassphrase := PickText(a.clientKeyPassphrase, material.clientKeyPassphrase));
      credentials := credentials.(username := PickText(a.username, credentials.username));
      credentials := credentials.(password := PickText(a.password, credentials.password));
      credentials := credentials.(oauthToken := PickText(a.oauthToken, credentials.oauthToken));
    }

    /** The explicit timing and impersonation arguments (Config.java:479-517). */
    method ApplyTimingArguments(a: ConfigArgs)
      modifies this
      ensures Data() == Resolve.ApplyTimingArguments(old(Data()), a)
    {
      limits := limits.(websocketPingInterval := PickSet(a.websocketPingInterval, limits.websocketPingInterval));
      limits := limits.(connectionTimeout := PickSet(a.connectionTimeout, limits.connectionTimeout));
      requestConfig := requestConfig.(watchReconnectLimit := PickSet(a.watchReconnectLimit, requestConfig.watchReconnectLimit));
      requestConfig := requestConfig.(watchReconnectInterval := PickSet(a.watchReconnectInterval, requestConfig.watchReconnectInterval));
      requestConfig := requestConfig.(requestTimeout := PickSet(a.requestTimeout, requestConfig.requestTimeout));
      requestConfig := requestConfig.(scaleTimeout := PickSet(a.scaleTimeout, requestConfig.scaleTimeout));
      requestConfig := requestConfig.(loggingInterval := PickSet(a.loggingInterval, requestConfig.loggingInterval));
      requestConfig := requestConfig.(requestRetryBackoffLimit := PickSet(a.requestRetryBackoffLimit, requestConfig.requestRetryBackoffLimit));
      requestConfig := requestConfig.(requestRetryBackoffInterval := PickSet(a.requestRetryBackoffInterval, requestConfig.requestRetryBackoffInterval));
      requestConfig := requestConfig.(uploadRequestTimeout := PickSet(a.uploadRequestTimeout, requestConfig.uploadRequestTimeout));
      requestConfig := requestConfig.(impersonateUsername := PickText(a.impersonateUsername, requestConfig.impersonateUsername));
      requestConfig := requestConfig.(impersonateGroups := PickList(a.impersonateGroups, requestConfig.impersonateGroups));
      requestConfig := requestConfig.(impersonateExtras := PickMap(a.impersonateExtras, requestConfig.impersonateExtras));
    }

    /** The explicit network, store and context arguments (Config.java:518-568). */
    method ApplyNetworkArguments(a: ConfigArgs)
      modifies this
      ensures Data() == Resolve.ApplyNetworkArguments(old(Data()), a)
    {
      ApplyProxyArguments(a);
      ApplyStoreArguments(a);
    }

    /** HTTP/2, proxy, user-agent and TLS-version arguments (Config.java:518-541). */
    method ApplyProxyArguments(a: ConfigArgs)
      modifies this
      ensures Data() == Resolve.ApplyProxyArguments(old(Data()), a)
    {
      network := network.(http2Disable := PickSet(a.http2Disable, network.http2Disable));
      network := network.(httpProxy := PickText(a.httpProxy, network.httpProxy));
      network := network.(httpsProxy := PickText(a.httpsProxy, network.httpsProxy));
      network := network.(noProxy := PickList(a.noProxy, network.noProxy));
      network := network.(proxyUsername := PickText(a.proxyUsername, network.proxyUsername));
      network := network.(proxyPassword := PickText(a.proxyPassword, network.proxyPassword));
      network := network.(userAgent := PickText(a.userAgent, network.userAgent));
      network := network.(tlsVersions := PickList(a.tlsVersions, network.tlsVersions));
    }

    /** Trust and key store, concurrency, token and context arguments (Config.java:542-568). */
    method ApplyStoreArguments(a: ConfigArgs)
      modifies this
      ensures Data() == Resolve.ApplyStoreArguments(old(Data()), a)
    {
      material := material.(trustStoreFile := PickText(a.trustStoreFile, material.trustStoreFile));
      material := material.(trustStorePassphrase := PickText(a.trustStorePassphrase, material.trustStorePassphrase));
      material := material.(keyStoreFile := PickText(a.keyStoreFile, material.keyStoreFile));
      material := material.(keyStorePassphrase := PickText(a.keyStorePassphrase, material.keyStorePassphrase));
      limits := limits.(maxConcurrentRequests := PickSet(a.maxConcurrentRequests, limits.maxConcurrentRequests));
      limits := limits.(maxConcurrentRequestsPerHost := PickSet(a.maxConcurrentRequestsPerHost, limits.maxConcurrentRequestsPerHost));
      credentials := credentials.(autoOAuthToken := PickText(a.autoOAuthToken, credentials.autoOAuthToken));
      contexts := PickList(a.contexts, contexts);
      currentContext := PickSet(a.currentContext, currentContext);
    }

    /** `setMasterUrl`: the raw URL is stored first, then replaced by its normalised form. */
    method SetMasterUrl(url: string, w: World)
      modifies this
      ensures Data() == Urls.SetMasterUrl(old(Data()), url, w)
    {
      endpoint := endpoint.(masterUrl := Some(url));
      endpoint := endpoint.(masterUrl := Some(EnsureEndsWithSlash(EnsureHttps(url, w.httpsAvailable(Data())))));
    }

    /** Connection endpoint and client certificate settings (Config.java:579-600). */
    method ProbeIdentity(w: World)
      requires LookupOr(w, MASTER, endpoint.masterUrl).Some?
      modifies this
      ensures Data() == Probe.ProbeIdentity(old(Data()), w)
    {
      endpoint := endpoint.(trustCerts := Some(LookupBool(w, TRUST_CERT, endpoint.trustCerts.GetOr(false))));
      endpoint := endpoint.(disableHostnameVerification :=
        Some(LookupBool(w, DISABLE_HOSTNAME_VERIFICATION, endpoint.disableHostnameVerification.GetOr(false))));
      SetMasterUrl(LookupOr(w, MASTER, endpoint.masterUrl).value, w);
      endpoint := endpoint.(apiVersion := LookupOr(w, API_VERSION, endpoint.apiVersion));
      endpoint := endpoint.(namespace := LookupOr(w, NAMESPACE, endpoint.namespace));
      material := material.(caCertFile := LookupOr(w, CA_CERTIFICATE_FILE, material.caCertFile));
      material := material.(caCertData := LookupOr(w, CA_CERTIFICATE_DATA, material.caCertData));
      material := material.(clientCertFile := LookupOr(w, CLIENT_CERTIFICATE_FILE, material.clientCertFile));
      material := material.(clientCertData := LookupOr(w, CLIENT_CERTIFICATE_DATA, material.clientCertData));
      material := material.(clientKeyFile := LookupOr(w, CLIENT_KEY_FILE, material.clientKeyFile));
      material := material.(clientKeyData := LookupOr(w, CLIENT_KEY_DATA, material.clientKeyData));
      var algorithm := GetKeyAlgorithm(material.clientKeyFile, material.clientKeyData, w);
      material := material.(clientKeyAlgo := algorithm);
      material := material.(clientKeyPassphrase := LookupOr(w, CLIENT_KEY_PASSPHRASE, material.clientKeyPassphrase));
      network := network.(userAgent := LookupOr(w, USER_AGENT, network.userAgent));
    }

    /** Store, token, basic-auth and impersonation settings (Config.java:602-621). */
    method ProbeCredentials(w: World)
      modifies this
      ensures Data() == Probe.ProbeCredentials(old(Data()), w)
    {
      material := material.(trustStorePassphrase := LookupOr(w, TRUSTSTORE_PASSPHRASE, material.trustStorePassphrase));
      material := material.(trustStoreFile := LookupOr(w, TRUSTSTORE_FILE, material.trustStoreFile));
      material := material.(keyStorePassphrase := LookupOr(w, KEYSTORE_PASSPHRASE, material.keyStorePassphrase));
      material := material.(keyStoreFile := LookupOr(w, KEYSTORE_FILE, material.keyStoreFile));
      credentials := credentials.(autoOAuthToken := LookupOr(w, OAUTH_TOKEN, credentials.autoOAuthToken));
      credentials := credentials.(username := LookupOr(w, AUTH_BASIC_USERNAME, credentials.username));
      credentials := credentials.(password := LookupOr(w, AUTH_BASIC_PASSWORD, credentials.password));
      requestConfig := requestConfig.(impersonateUsername :=
        LookupOr(w, IMPERSONATE_USERNAME, requestConfig.impersonateUsername));
      var configuredImpersonateGroups :=
        LookupOr(w, IMPERSONATE_GROUP, Some(Join(requestConfig.impersonateGroups.GetOr([]), ',')));
      if NotNullOrEmpty(configuredImpersonateGroups) {
        requestConfig := requestConfig.(impersonateGroups := Some(JavaSplit(configuredImpersonateGroups.value, ',')));
      }
    }

    /** Timeouts, intervals and request limits (Config.java:623-673). */
    method ProbeTiming(w: World)
      requires TimingDefined(Data(), w)
      modifies this
      ensures Data() == Probe.ProbeTiming(old(Data()), w)
    {
      ProbeRequestTiming(w);
      ProbeClientLimits(w);
    }

    /** The watch, scale, logging and request timeouts (Config.java:623-655). */
    method ProbeRequestTiming(w: World)
      requires RequestTimingDefined(w)
      modifies this
      ensures Data() == Probe.ProbeRequestTiming(old(Data()), w)
    {
      var configuredWatchReconnectInterval := Lookup(w, WATCH_RECONNECT_INTERVAL);
      if configuredWatchReconnectInterval.Some? {
        requestConfig := requestConfig.(watchReconnectInterval := ParseInt32(configuredWatchReconnectInterval.value));
      }
      var configuredWatchReconnectLimit := Lookup(w, WATCH_RECONNECT_LIMIT);
      if configuredWatchReconnectLimit.Some? {
        requestConfig := requestConfig.(watchReconnectLimit := ParseInt32(configuredWatchReconnectLimit.value));
      }
      var configuredScaleTimeout := LookupOr(w, SCALE_TIMEOUT, Some(IntToString(DEFAULT_SCALE_TIMEOUT as int)));
      requestConfig := requestConfig.(scaleTimeout := ParseInt64(configuredScaleTimeout.value));
      var configuredLoggingInterval :=
        LookupOr(w, LOGGING_INTERVAL, Some(IntToString(DEFAULT_LOGGING_INTERVAL as int)));
      requestConfig := requestConfig.(loggingInterval := ParseInt32(configuredLoggingInterval.value));
      limits := limits.(connectionTimeout := LookupInt32(w, CONNECTION_TIMEOUT, limits.connectionTimeout));
      requestConfig := requestConfig.(uploadRequestTimeout :=
        LookupInt32(w, UPLOAD_REQUEST_TIMEOUT, requestConfig.uploadRequestTimeout));
      requestConfig := requestConfig.(requestTimeout := LookupInt32(w, REQUEST_TIMEOUT, requestConfig.requestTimeout));
      requestConfig := requestConfig.(requestRetryBackoffLimit :=
        LookupInt32(w, REQUEST_RETRY_BACKOFF_LIMIT, requestConfig.requestRetryBackoffLimit));
      requestConfig := requestConfig.(requestRetryBackoffInterval :=
        LookupInt32(w, REQUEST_RETRY_BACKOFF_INTERVAL, requestConfig.requestRetryBackoffInterval));
    }

    /** The ping interval and the request limits (Config.java:657-673). */
    method ProbeClientLimits(w: World)
      requires ClientLimitsDefined(Data(), w)
      modifies this
      ensures Data() == Probe.ProbeClientLimits(old(Data()), w)
    {
      limits := limits.(websocketPingInterval :=
        Some(ReparseInt64(w, WEBSOCKET_PING_INTERVAL, limits.websocketPingInterval)));
      limits := limits.(maxConcurrentRequests :=
        Some(ReparseInt32(w, MAX_CONCURRENT_REQUESTS, limits.maxConcurrentRequests)));
      limits := limits.(maxConcurrentRequestsPerHost :=
        Some(ReparseInt32(w, MAX_CONCURRENT_REQUESTS_PER_HOST, limits.maxConcurrentRequestsPerHost)));
    }

    /** HTTP/2 and proxy settings (Config.java:675-695). */
    method ProbeProxy(w: World)
      modifies this
      ensures Data() == Probe.ProbeProxy(old(Data()), w)
    {
      var n := network.(http2Disable := Some(LookupBool(w, HTTP2_DISABLE, network.http2Disable.GetOr(false))));
      if !NotNullOrEmpty(n.httpProxy) {
        n := n.(httpProxy := LookupOr(w, ALL_PROXY, n.httpProxy));
        n := n.(httpProxy := LookupOr(w, HTTP_PROXY, n.httpProxy));
      }
      if !NotNullOrEmpty(n.httpsProxy) {
        n := n.(httpsProxy := LookupOr(w, ALL_PROXY, n.httpsProxy));
        n := n.(httpsProxy := LookupOr(w, HTTPS_PROXY, n.httpsProxy));
      }
      n := n.(proxyUsername := LookupOr(w, PROXY_USERNAME, n.proxyUsername));
      n := n.(proxyPassword := LookupOr(w, PROXY_PASSWORD, n.proxyPassword));
      var noProxyVar := Lookup(w, NO_PROXY);
      if noProxyVar.Some? {
        n := n.(noProxy := Some(JavaSplit(noProxyVar.value, ',')));
      }
      network := n;
    }

    /** TLS protocol versions (Config.java:697-705). */
    method ProbeTlsVersions(w: World)
      modifies this
      ensures Data() == Probe.ProbeTlsVersions(old(Data()), w)
    {
      var tlsVersionsVar := Lookup(w, TLS_VERSIONS);
      if tlsVersionsVar.Some? && tlsVersionsVar.value != "" {
        var versions := TlsVersionsOf(JavaSplit(tlsVersionsVar.value, ','), w);
        network := network.(tlsVersions := Some(versions));
      }
    }

    /** `configFromSysPropsOrEnvVars(config)`: the five probe stages in order. */
    static method ConfigFromSysPropsOrEnvVars(config: Config, w: World)
      requires ProbeDefined(config.Data(), w)
      modifies config
      ensures config.Data() == Probe.ConfigFromSysPropsOrEnvVars(old(config.Data()), w)
    {
      config.ProbeIdentity(w);
      config.ProbeCredentials(w);
      config.ProbeTiming(w);
      config.ProbeProxy(w);
      config.ProbeTlsVersions(w);
    }

    /** `tryServiceAccount(config)`; the result says whether a token was read. */
    static method TryServiceAccount(config: Config, w: World) returns (found: bool)
      modifies config
      ensures (config.Data(), found) == Discovery.TryServiceAccount(old(config.Data()), w)
    {
      var masterHost := Lookup(w, SERVICE_HOST);
      var masterPort := Lookup(w, SERVICE_PORT);
      var caCertPath := ServiceAccountCaCertPath(w);
      if masterHost.Some? && masterPort.Some? {
        var hostPort := JoinHostPort(masterHost.value, masterPort.value);
        config.SetMasterUrl(HTTPS_PROTOCOL_PREFIX + hostPort, w);
      }
      if LookupBool(w, AUTH_TRY_SERVICE_ACCOUNT, true) {
        if caCertPath in w.regularFiles {
          config.material := config.material.(caCertFile := Some(caCertPath));
        }
        var saTokenPathFile := ServiceAccountTokenFile(w);
        if saTokenPathFile.Some? && saTokenPathFile.value in w.fileContents {
          config.credentials := config.credentials.(autoOAuthToken := Some(w.fileContents[saTokenPathFile.value]));
          return true;
        }
      }
      return false;
    }

    /** `tryNamespaceFromPath(config)`; the result says whether a namespace was read. */
    static method TryNamespaceFromPath(config: Config, w: World) returns (found: bool)
      modifies config
      ensures (config.Data(), found) == Discovery.TryNamespaceFromPath(old(config.Data()), w)
    {
      if LookupBool(w, TRY_NAMESPACE_PATH, true) {
        var serviceAccountNamespace := NamespaceFilePath(w);
        if serviceAccountNamespace in w.regularFiles && serviceAccountNamespace in w.fileContents {
          var namespace := RemoveAll(w.fileContents[serviceAccountNamespace], w.lineSeparator);
          config.endpoint := config.endpoint.(namespace := Some(namespace));
          return true;
        }
      }
      return false;
    }

    /** `postAutoConfigure(config)`. */
    static method PostAutoConfigure(config: Config, w: World)
      requires ProbeDefined(config.Data(), w)
      modifies config
      ensures config.Data() == Resolve.PostAutoConfigure(old(config.Data()), w)
    {
      ConfigFromSysPropsOrEnvVars(config, w);
      var url := config.endpoint.masterUrl.value;
      config.endpoint := config.endpoint.(masterUrl := Some(EnsureHttps(url, w.httpsAvailable(config.Data()))));
      url := config.endpoint.masterUrl.value;
      config.endpoint := config.endpoint.(masterUrl := Some(EnsureEndsWithSlash(url)));
    }

    /** `autoConfigure(config, context)`: kubeconfig files first, else the in-cluster files. */
    static method AutoConfigure(config: Config, context: Option<string>, w: World)
      requires AutoConfigureDefined(config.Data(), context, w)
      modifies config
      ensures config.Data() == Resolve.AutoConfigure(old(config.Data()), context, w)
    {
      Discover(config, context, w);
      PostAutoConfigure(config, w);
      config.autoConfigure := Some(true);
    }

    /** The first half of `autoConfigure`: the kubeconfig files, or else the in-cluster fallbacks. */
    static method Discover(config: Config, context: Option<string>, w: World)
      modifies config
      ensures config.Data() == AutoDiscover(old(config.Data()), context, w)
    {
      var kubeConfigFiles := FindKubeConfigFiles(w);
      if |kubeConfigFiles| > 0 {
        config.Load(w.merge(config.Data(), context, kubeConfigFiles));
      } else {
        var fromServiceAccount := TryServiceAccount(config, w);
        var fromNamespacePath := TryNamespaceFromPath(config, w);
      }
    }

    /** `empty()`. */
    static method Empty(w: World) returns (config: Config)
      ensures fresh(config) && config.Data() == Resolve.Empty(w)
    {
      config := new Config(NoArgs(false), true, w);
      EmptyIsConstructedWithoutArguments(w);
    }

    /** `autoConfigure(context)`. */
    static method AutoConfigured(context: Option<string>, w: World) returns (config: Config)
      requires AutoConfigureDefined(Resolve.Empty(w), context, w)
      ensures fresh(config) && config.Data() == AutoConfigureFresh(context, w)
    {
      config := Empty(w);
      AutoConfigure(config, context, w);
    }

    /** `fromKubeconfig(context, file)`. */
    static method FromKubeconfig(context: Option<string>, file: string, w: World) returns (config: Config)
      ensures fresh(config) && config.Data() == Resolve.FromKubeconfig(context, file, w)
    {
      config := Empty(w);
      config.Load(w.merge(config.Data(), context, [file]));
    }

    /** `refresh()`: this instance, or a newly built one. */
    method Refresh(w: World) returns (r: Config)
      requires RefreshDefined(Data(), w)
      ensures Resolve.Refresh(Data(), w) == Unchanged ==> r == this
      ensures Resolve.Refresh(Data(), w).Replaced? ==>
        fresh(r) && r.Data() == Resolve.Refresh(Data(), w).config
    {
      var currentContextName := CurrentContextName(Data());
      if NotNullOrEmpty(credentials.oauthToken) {
        return this;
      }
      if autoConfigure.value {
        r := AutoConfigured(currentContextName, w);
        return;
      }
      var file := w.fileForContext(currentContext);
      if file.Some? {
        if file.value !in w.fileContents {
          return this;
        }
        r := Reread(currentContextName, file.value, w);
        return;
      }
      return this;
    }

    /** The kubeconfig branch of `refresh`: the backing file is read again and post-configured. */
    static method Reread(context: Option<string>, file: string, w: World) returns (r: Config)
      requires !DisableAutoConfig(w) ==> ProbeDefined(Resolve.FromKubeconfig(context, file, w), w)
      ensures fresh(r)
      ensures r.Data() == (var reread := Resolve.FromKubeconfig(context, file, w);
                           if DisableAutoConfig(w) then reread else Resolve.PostAutoConfigure(reread, w))
    {
      r := FromKubeconfig(context, file, w);
      if !DisableAutoConfig(w) {
        PostAutoConfigure(r, w);
      }
    }
  }
}
