/**
 * The environment probe `configFromSysPropsOrEnvVars` (Config.java:578-706),
 * as five stages applied in source order. Each stage names the fields it may
 * change; every other field is carried over unchanged.
 */
module Probe {
  import opened Wrappers
  import opened Text
  import opened Model
  import opened Urls
  import opened Keys

  /** The probe's rule for a plain string field: a present variable replaces it, an absent one keeps it. */
  predicate ReplacedIfPresent(w: World, name: string, before: Option<string>, after: Option<string>) {
    (name in w.props ==> after == Some(w.props[name])) &&
    (name !in w.props ==> after == before)
  }

  /** The same rule for a numeric field: a present variable is parsed, an absent one keeps the field. */
  predicate ParsedIfPresent32(w: World, name: string, before: Option<int32>, after: Option<int32>) {
    (name in w.props ==> after.Some? && ParseDecimal(w.props[name]) == Some(after.value as int)) &&
    (name !in w.props ==> after == before)
  }

  predicate ParsedIfPresent64(w: World, name: string, before: Option<int64>, after: Option<int64>) {
    (name in w.props ==> after.Some? && ParseDecimal(w.props[name]) == Some(after.value as int)) &&
    (name !in w.props ==> after == before)
  }

  /** A present `long` variable is one `Long.parseLong` accepts. */
  predicate Int64Readable(w: World, name: string) {
    name !in w.props || ParseInt64(w.props[name]).Some?
  }

  function Int32Value(n: Option<int32>): Option<int> {
    if n.Some? then Some(n.value as int) else None
  }

  function Int64Value(n: Option<int64>): Option<int> {
    if n.Some? then Some(n.value as int) else None
  }

  /**
   * `String.valueOf(field)` followed by a parse succeeds exactly when the
   * field is set, since `"null"` is not a number.
   */
  lemma ValueOfParses32(n: Option<int32>)
    ensures ParseInt32(ValueOf(Int32Value(n))) == n
  {
    if n.Some? {
      ParseInt32ToString(n.value);
    } else {
      ParseNull();
    }
  }

  lemma ValueOfParses64(n: Option<int64>)
    ensures ParseInt64(ValueOf(Int64Value(n))) == n
  {
    if n.Some? {
      ParseInt64ToString(n.value);
    } else {
      ParseNull();
    }
  }

  // ---------------------------------------------------------------------------
  // Stage 1: TLS flags, master URL, API version, namespace, certificates, keys and user agent
  // (Config.java:579-600)
  // ---------------------------------------------------------------------------

  function ProbeIdentity(c: ConfigData, w: World): (r: ConfigData)
    requires LookupOr(w, MASTER, c.masterUrl).Some?
    ensures r == c.(trustCerts := r.trustCerts, disableHostnameVerification := r.disableHostnameVerification,
                    masterUrl := r.masterUrl, apiVersion := r.apiVersion, namespace := r.namespace,
                    caCertFile := r.caCertFile, caCertData := r.caCertData,
                    clientCertFile := r.clientCertFile, clientCertData := r.clientCertData,
                    clientKeyFile := r.clientKeyFile, clientKeyData := r.clientKeyData,
                    clientKeyAlgo := r.clientKeyAlgo, clientKeyPassphrase := r.clientKeyPassphrase,
                    userAgent := r.userAgent)
    ensures r.trustCerts == Some(LookupBool(w, TRUST_CERT, c.trustCerts.GetOr(false)))
    ensures r.disableHostnameVerification ==
            Some(LookupBool(w, DISABLE_HOSTNAME_VERIFICATION, c.disableHostnameVerification.GetOr(false)))
    ensures r.masterUrl.Some? && IsNormalized(r.masterUrl.value)
    ensures MASTER in w.props && HasScheme(w.props[MASTER]) ==>
            r.masterUrl == Some(EnsureEndsWithSlash(w.props[MASTER]))
    ensures MASTER !in w.props && IsNormalized(c.masterUrl.value) ==> r.masterUrl == c.masterUrl
    ensures r.masterUrl == SetMasterUrl(c.(trustCerts := r.trustCerts,
                                           disableHostnameVerification := r.disableHostnameVerification),
                                        LookupOr(w, MASTER, c.masterUrl).value, w).masterUrl
    ensures ReplacedIfPresent(w, API_VERSION, c.apiVersion, r.apiVersion)
    ensures ReplacedIfPresent(w, NAMESPACE, c.namespace, r.namespace)
    ensures ReplacedIfPresent(w, CA_CERTIFICATE_FILE, c.caCertFile, r.caCertFile)
    ensures ReplacedIfPresent(w, CA_CERTIFICATE_DATA, c.caCertData, r.caCertData)
    ensures ReplacedIfPresent(w, CLIENT_CERTIFICATE_FILE, c.clientCertFile, r.clientCertFile)
    ensures ReplacedIfPresent(w, CLIENT_CERTIFICATE_DATA, c.clientCertData, r.clientCertData)
    ensures ReplacedIfPresent(w, CLIENT_KEY_FILE, c.clientKeyFile, r.clientKeyFile)
    ensures ReplacedIfPresent(w, CLIENT_KEY_DATA, c.clientKeyData, r.clientKeyData)
    ensures r.clientKeyAlgo == KeyAlgorithm(r.clientKeyFile, r.clientKeyData, w)
    ensures ReplacedIfPresent(w, CLIENT_KEY_PASSPHRASE, c.clientKeyPassphrase, r.clientKeyPassphrase)
    ensures ReplacedIfPresent(w, USER_AGENT, c.userAgent, r.userAgent)
  {
    var flags := c.(trustCerts := Some(LookupBool(w, TRUST_CERT, c.trustCerts.GetOr(false))));
    var flags' := flags.(disableHostnameVerification :=
      Some(LookupBool(w, DISABLE_HOSTNAME_VERIFICATION, flags.disableHostnameVerification.GetOr(false))));
    var withMaster := SetMasterUrl(flags', LookupOr(w, MASTER, flags'.masterUrl).value, w);
    var withFiles := withMaster.(
      apiVersion := LookupOr(w, API_VERSION, withMaster.apiVersion),
      namespace := LookupOr(w, NAMESPACE, withMaster.namespace),
      caCertFile := LookupOr(w, CA_CERTIFICATE_FILE, withMaster.caCertFile),
      caCertData := LookupOr(w, CA_CERTIFICATE_DATA, withMaster.caCertData),
      clientCertFile := LookupOr(w, CLIENT_CERTIFICATE_FILE, withMaster.clientCertFile),
      clientCertData := LookupOr(w, CLIENT_CERTIFICATE_DATA, withMaster.clientCertData),
      clientKeyFile := LookupOr(w, CLIENT_KEY_FILE, withMaster.clientKeyFile),
      clientKeyData := LookupOr(w, CLIENT_KEY_DATA, withMaster.clientKeyData));
    var withAlgo := withFiles.(clientKeyAlgo := KeyAlgorithm(withFiles.clientKeyFile, withFiles.clientKeyData, w));
    withAlgo.(
      clientKeyPassphrase := LookupOr(w, CLIENT_KEY_PASSPHRASE, withAlgo.clientKeyPassphrase),
      userAgent := LookupOr(w, USER_AGENT, withAlgo.userAgent))
  }

  // ---------------------------------------------------------------------------
  // Stage 2: key stores, tokens, basic credentials and impersonation (Config.java:602-621)
  // ---------------------------------------------------------------------------

  /** A list of groups that a comma join followed by a comma split gives back unchanged. */
  predicate SurvivesCommaRoundTrip(groups: seq<string>) {
    |groups| >= 1 && (forall i :: 0 <= i < |groups| ==> ',' !in groups[i]) &&
    (|groups| == 1 || groups[|groups| - 1] != "")
  }

  function ProbeCredentials(c: ConfigData, w: World): (r: ConfigData)
    ensures r == c.(trustStorePassphrase := r.trustStorePassphrase, trustStoreFile := r.trustStoreFile,
                    keyStorePassphrase := r.keyStorePassphrase, keyStoreFile := r.keyStoreFile,
                    autoOAuthToken := r.autoOAuthToken, username := r.username, password := r.password,
                    requestConfig := r.requestConfig)
    ensures r.requestConfig == c.requestConfig.(impersonateUsername := r.requestConfig.impersonateUsername,
                                                impersonateGroups := r.requestConfig.impersonateGroups)
    ensures ReplacedIfPresent(w, TRUSTSTORE_PASSPHRASE, c.trustStorePassphrase, r.trustStorePassphrase)
    ensures ReplacedIfPresent(w, TRUSTSTORE_FILE, c.trustStoreFile, r.trustStoreFile)
    ensures ReplacedIfPresent(w, KEYSTORE_PASSPHRASE, c.keyStorePassphrase, r.keyStorePassphrase)
    ensures ReplacedIfPresent(w, KEYSTORE_FILE, c.keyStoreFile, r.keyStoreFile)
    ensures ReplacedIfPresent(w, OAUTH_TOKEN, c.autoOAuthToken, r.autoOAuthToken)
    ensures ReplacedIfPresent(w, AUTH_BASIC_USERNAME, c.username, r.username)
    ensures ReplacedIfPresent(w, AUTH_BASIC_PASSWORD, c.password, r.password)
    ensures ReplacedIfPresent(w, IMPERSONATE_USERNAME, c.requestConfig.impersonateUsername,
                              r.requestConfig.impersonateUsername)
    ensures r.requestConfig.impersonateGroups == ImpersonateGroups(c.requestConfig.impersonateGroups, w)
  {
    var stores := c.(
      trustStorePassphrase := LookupOr(w, TRUSTSTORE_PASSPHRASE, c.trustStorePassphrase),
      trustStoreFile := LookupOr(w, TRUSTSTORE_FILE, c.trustStoreFile),
      keyStorePassphrase := LookupOr(w, KEYSTORE_PASSPHRASE, c.keyStorePassphrase),
      keyStoreFile := LookupOr(w, KEYSTORE_FILE, c.keyStoreFile),
      autoOAuthToken := LookupOr(w, OAUTH_TOKEN, c.autoOAuthToken),
      username := LookupOr(w, AUTH_BASIC_USERNAME, c.username),
      password := LookupOr(w, AUTH_BASIC_PASSWORD, c.password),
      requestConfig := c.requestConfig.(impersonateUsername :=
        LookupOr(w, IMPERSONATE_USERNAME, c.requestConfig.impersonateUsername)));
    stores.(requestConfig := stores.requestConfig.(impersonateGroups :=
      ImpersonateGroups(stores.requestConfig.impersonateGroups, w)))
  }

  /**
   * The impersonated groups: the current list is joined with commas to serve
   * as the default, and a non-empty result is split again. A set variable
   * replaces the list; without one a list the round trip preserves is kept.
   */
  function ImpersonateGroups(groups: Option<seq<string>>, w: World): (r: Option<seq<string>>)
    ensures IMPERSONATE_GROUP in w.props && w.props[IMPERSONATE_GROUP] != "" ==>
            r == Some(JavaSplit(w.props[IMPERSONATE_GROUP], ','))
    ensures IMPERSONATE_GROUP in w.props && w.props[IMPERSONATE_GROUP] == "" ==> r == groups
    ensures IMPERSONATE_GROUP !in w.props && groups.None? ==> r == None
    ensures IMPERSONATE_GROUP !in w.props && groups.Some? && SurvivesCommaRoundTrip(groups.value) ==> r == groups
  {
    var configured := LookupOr(w, IMPERSONATE_GROUP, Some(Join(groups.GetOr([]), ',')));
    if IMPERSONATE_GROUP !in w.props && groups.Some? && SurvivesCommaRoundTrip(groups.value) then
      JavaSplitJoin(groups.value, ',');
      if NotNullOrEmpty(configured) then Some(JavaSplit(configured.value, ',')) else groups
    else if NotNullOrEmpty(configured) then Some(JavaSplit(configured.value, ','))
    else groups
  }

  // ---------------------------------------------------------------------------
  // Stage 3: reconnect, timeouts, retries, ping interval and concurrency (Config.java:623-673)
  // ---------------------------------------------------------------------------

  /** Every number the timing stage parses is well formed, and `String.valueOf` is never given a null. */
  predicate TimingDefined(c: ConfigData, w: World) {
    RequestTimingDefined(w) && ClientLimitsDefined(c, w)
  }

  /** Every timeout and interval variable that is set parses as a number of the field's width. */
  predicate RequestTimingDefined(w: World) {
    Int32Readable(w, WATCH_RECONNECT_INTERVAL) && Int32Readable(w, WATCH_RECONNECT_LIMIT) &&
    Int64Readable(w, SCALE_TIMEOUT) && Int32Readable(w, LOGGING_INTERVAL) &&
    Int32Readable(w, CONNECTION_TIMEOUT) && Int32Readable(w, UPLOAD_REQUEST_TIMEOUT) &&
    Int32Readable(w, REQUEST_TIMEOUT) && Int32Readable(w, REQUEST_RETRY_BACKOFF_LIMIT) &&
    Int32Readable(w, REQUEST_RETRY_BACKOFF_INTERVAL)
  }

  /**
   * The ping interval and the request limits are unboxed and re-parsed, so
   * each needs a parseable variable or a current value.
   */
  predicate ClientLimitsDefined(c: ConfigData, w: World) {
    Int64Readable(w, WEBSOCKET_PING_INTERVAL) &&
    (WEBSOCKET_PING_INTERVAL in w.props || c.websocketPingInterval.Some?) &&
    Int32Readable(w, MAX_CONCURRENT_REQUESTS) &&
    (MAX_CONCURRENT_REQUESTS in w.props || c.maxConcurrentRequests.Some?) &&
    Int32Readable(w, MAX_CONCURRENT_REQUESTS_PER_HOST) &&
    (MAX_CONCURRENT_REQUESTS_PER_HOST in w.props || c.maxConcurrentRequestsPerHost.Some?)
  }

  /** `Long.parseLong(getSystemPropertyOrEnvVar(name, String.valueOf(field)))`. */
  function ReparseInt64(w: World, name: string, field: Option<int64>): (r: int64)
    requires Int64Readable(w, name) && (name in w.props || field.Some?)
    ensures ParsedIfPresent64(w, name, field, Some(r))
  {
    ValueOfParses64(field);
    ParseInt64(LookupOr(w, name, Some(ValueOf(Int64Value(field)))).value).value
  }

  /** `Integer.parseInt(getSystemPropertyOrEnvVar(name, String.valueOf(field)))`. */
  function ReparseInt32(w: World, name: string, field: Option<int32>): (r: int32)
    requires Int32Readable(w, name) && (name in w.props || field.Some?)
    ensures ParsedIfPresent32(w, name, field, Some(r))
  {
    ValueOfParses32(field);
    ParseInt32(LookupOr(w, name, Some(ValueOf(Int32Value(field)))).value).value
  }

  function ProbeTiming(c: ConfigData, w: World): (r: ConfigData)
    requires TimingDefined(c, w)
    ensures r == c.(websocketPingInterval := r.websocketPingInterval, connectionTimeout := r.connectionTimeout,
                    maxConcurrentRequests := r.maxConcurrentRequests,
                    maxConcurrentRequestsPerHost := r.maxConcurrentRequestsPerHost,
                    requestConfig := r.requestConfig)
    ensures r.requestConfig == c.requestConfig.(
      watchReconnectLimit := r.requestConfig.watchReconnectLimit,
      watchReconnectInterval := r.requestConfig.watchReconnectInterval,
      requestTimeout := r.requestConfig.requestTimeout,
      scaleTimeout := r.requestConfig.scaleTimeout,
      loggingInterval := r.requestConfig.loggingInterval,
      requestRetryBackoffLimit := r.requestConfig.requestRetryBackoffLimit,
      requestRetryBackoffInterval := r.requestConfig.requestRetryBackoffInterval,
      uploadRequestTimeout := r.requestConfig.uploadRequestTimeout)
    ensures ParsedIfPresent32(w, WATCH_RECONNECT_INTERVAL, c.requestConfig.watchReconnectInterval,
                              r.requestConfig.watchReconnectInterval)
    ensures ParsedIfPresent32(w, WATCH_RECONNECT_LIMIT, c.requestConfig.watchReconnectLimit,
                              r.requestConfig.watchReconnectLimit)
    ensures SCALE_TIMEOUT in w.props ==> ParsedIfPresent64(w, SCALE_TIMEOUT, None, r.requestConfig.scaleTimeout)
    ensures SCALE_TIMEOUT !in w.props ==> r.requestConfig.scaleTimeout == Some(DEFAULT_SCALE_TIMEOUT)
    ensures LOGGING_INTERVAL in w.props ==> ParsedIfPresent32(w, LOGGING_INTERVAL, None, r.requestConfig.loggingInterval)
    ensures LOGGING_INTERVAL !in w.props ==> r.requestConfig.loggingInterval == Some(DEFAULT_LOGGING_INTERVAL)
    ensures ParsedIfPresent32(w, CONNECTION_TIMEOUT, c.connectionTimeout, r.connectionTimeout)
    ensures ParsedIfPresent32(w, UPLOAD_REQUEST_TIMEOUT, c.requestConfig.uploadRequestTimeout,
                              r.requestConfig.uploadRequestTimeout)
    ensures ParsedIfPresent32(w, REQUEST_TIMEOUT, c.requestConfig.requestTimeout, r.requestConfig.requestTimeout)
    ensures ParsedIfPresent32(w, REQUEST_RETRY_BACKOFF_LIMIT, c.requestConfig.requestRetryBackoffLimit,
                              r.requestConfig.requestRetryBackoffLimit)
    ensures ParsedIfPresent32(w, REQUEST_RETRY_BACKOFF_INTERVAL, c.requestConfig.requestRetryBackoffInterval,
                              r.requestConfig.requestRetryBackoffInterval)
    ensures ParsedIfPresent64(w, WEBSOCKET_PING_INTERVAL, c.websocketPingInterval, r.websocketPingInterval)
    ensures ParsedIfPresent32(w, MAX_CONCURRENT_REQUESTS, c.maxConcurrentRequests, r.maxConcurrentRequests)
    ensures ParsedIfPresent32(w, MAX_CONCURRENT_REQUESTS_PER_HOST, c.maxConcurrentRequestsPerHost,
                              r.maxConcurrentRequestsPerHost)
  {
    ParseInt64ToString(DEFAULT_SCALE_TIMEOUT);
    ParseInt32ToString(DEFAULT_LOGGING_INTERVAL);
    ProbeClientLimits(ProbeRequestTiming(c, w), w)
  }

  /** The request timeouts and the connection timeout (Config.java:623-655). */
  function ProbeRequestTiming(c: ConfigData, w: World): (r: ConfigData)
    requires RequestTimingDefined(w)
    ensures r == c.(requestConfig := r.requestConfig, connectionTimeout := r.connectionTimeout)
  {
    c.(
      requestConfig := RequestTimeouts(ResetTiming(ReconnectTiming(c.requestConfig, w), w), w),
      connectionTimeout := LookupInt32(w, CONNECTION_TIMEOUT, c.connectionTimeout))
  }

  /** The ping interval and the request limits (Config.java:657-673). */
  function ProbeClientLimits(c: ConfigData, w: World): (r: ConfigData)
    requires ClientLimitsDefined(c, w)
    ensures r == c.(websocketPingInterval := r.websocketPingInterval, maxConcurrentRequests := r.maxConcurrentRequests,
                    maxConcurrentRequestsPerHost := r.maxConcurrentRequestsPerHost)
  {
    c.(
      websocketPingInterval := Some(ReparseInt64(w, WEBSOCKET_PING_INTERVAL, c.websocketPingInterval)),
      maxConcurrentRequests := Some(ReparseInt32(w, MAX_CONCURRENT_REQUESTS, c.maxConcurrentRequests)),
      maxConcurrentRequestsPerHost :=
        Some(ReparseInt32(w, MAX_CONCURRENT_REQUESTS_PER_HOST, c.maxConcurrentRequestsPerHost)))
  }

  /** The watch reconnect interval and limit, each replaced only when its variable is set. */
  function ReconnectTiming(rc: RequestConfig, w: World): RequestConfig {
    rc.(
      watchReconnectInterval :=
        if WATCH_RECONNECT_INTERVAL in w.props then ParseInt32(w.props[WATCH_RECONNECT_INTERVAL])
        else rc.watchReconnectInterval,
      watchReconnectLimit :=
        if WATCH_RECONNECT_LIMIT in w.props then ParseInt32(w.props[WATCH_RECONNECT_LIMIT])
        else rc.watchReconnectLimit)
  }

  /** The scale timeout and logging interval, read with the built-in defaults rather than the current values. */
  function ResetTiming(rc: RequestConfig, w: World): RequestConfig {
    rc.(
      scaleTimeout := ParseInt64(LookupOr(w, SCALE_TIMEOUT, Some(IntToString(DEFAULT_SCALE_TIMEOUT as int))).value),
      loggingInterval := ParseInt32(LookupOr(w, LOGGING_INTERVAL, Some(IntToString(DEFAULT_LOGGING_INTERVAL as int))).value))
  }

  /** The request timeouts and retry back-off, each kept when its variable is absent. */
  function RequestTimeouts(rc: RequestConfig, w: World): RequestConfig
    requires Int32Readable(w, UPLOAD_REQUEST_TIMEOUT) && Int32Readable(w, REQUEST_TIMEOUT)
    requires Int32Readable(w, REQUEST_RETRY_BACKOFF_LIMIT) && Int32Readable(w, REQUEST_RETRY_BACKOFF_INTERVAL)
  {
    rc.(
      uploadRequestTimeout := LookupInt32(w, UPLOAD_REQUEST_TIMEOUT, rc.uploadRequestTimeout),
      requestTimeout := LookupInt32(w, REQUEST_TIMEOUT, rc.requestTimeout),
      requestRetryBackoffLimit := LookupInt32(w, REQUEST_RETRY_BACKOFF_LIMIT, rc.requestRetryBackoffLimit),
      requestRetryBackoffInterval := LookupInt32(w, REQUEST_RETRY_BACKOFF_INTERVAL, rc.requestRetryBackoffInterval))
  }

  // ---------------------------------------------------------------------------
  // Stage 4: HTTP/2 switch and proxies (Config.java:675-695)
  // ---------------------------------------------------------------------------

  /**
   * The proxy precedence rule: a non-empty proxy already set (from a
   * kubeconfig, say) is kept; otherwise the scheme's own variable beats
   * `all.proxy`, which beats the old value.
   */
  predicate ProxyPrecedence(w: World, schemeVariable: string, before: Option<string>, after: Option<string>) {
    (NotNullOrEmpty(before) ==> after == before) &&
    (!NotNullOrEmpty(before) && schemeVariable in w.props ==> after == Some(w.props[schemeVariable])) &&
    (!NotNullOrEmpty(before) && schemeVariable !in w.props && ALL_PROXY in w.props ==>
       after == Some(w.props[ALL_PROXY])) &&
    (!NotNullOrEmpty(before) && schemeVariable !in w.props && ALL_PROXY !in w.props ==> after == before)
  }

  function ProbeProxy(c: ConfigData, w: World): (r: ConfigData)
    ensures r == c.(http2Disable := r.http2Disable, httpProxy := r.httpProxy, httpsProxy := r.httpsProxy,
                    proxyUsername := r.proxyUsername, proxyPassword := r.proxyPassword, noProxy := r.noProxy)
    ensures r.http2Disable == Some(LookupBool(w, HTTP2_DISABLE, c.http2Disable.GetOr(false)))
    ensures ProxyPrecedence(w, HTTP_PROXY, c.httpProxy, r.httpProxy)
    ensures ProxyPrecedence(w, HTTPS_PROXY, c.httpsProxy, r.httpsProxy)
    ensures ReplacedIfPresent(w, PROXY_USERNAME, c.proxyUsername, r.proxyUsername)
    ensures ReplacedIfPresent(w, PROXY_PASSWORD, c.proxyPassword, r.proxyPassword)
    ensures NO_PROXY in w.props ==> r.noProxy == Some(JavaSplit(w.props[NO_PROXY], ','))
    ensures NO_PROXY !in w.props ==> r.noProxy == c.noProxy
  {
    var http2 := c.(http2Disable := Some(LookupBool(w, HTTP2_DISABLE, c.http2Disable.GetOr(false))));
    var httpProxy := http2.httpProxy;
    var http := if NotNullOrEmpty(httpProxy) then http2
                else http2.(httpProxy := LookupOr(w, HTTP_PROXY, LookupOr(w, ALL_PROXY, httpProxy)));
    var httpsProxy := http.httpsProxy;
    var https := if NotNullOrEmpty(httpsProxy) then http
                 else http.(httpsProxy := LookupOr(w, HTTPS_PROXY, LookupOr(w, ALL_PROXY, httpsProxy)));
    var credentials := https.(proxyUsername := LookupOr(w, PROXY_USERNAME, https.proxyUsername),
                              proxyPassword := LookupOr(w, PROXY_PASSWORD, https.proxyPassword));
    if NO_PROXY in w.props then credentials.(noProxy := Some(JavaSplit(w.props[NO_PROXY], ',')))
    else credentials
  }

  // ---------------------------------------------------------------------------
  // Stage 5: TLS versions (Config.java:697-705)
  // ---------------------------------------------------------------------------

  /** The TLS versions named by a comma-separated list, one per name. */
  function TlsVersionsNamed(names: seq<string>, w: World): (r: seq<TlsVersion>)
    ensures |r| == |names|
    ensures forall i :: 0 <= i < |names| ==> r[i] == w.tlsForJavaName(names[i])
  {
    seq(|names|, i requires 0 <= i < |names| => w.tlsForJavaName(names[i]))
  }

  /** The array-filling loop of the TLS stage. */
  method TlsVersionsOf(names: seq<string>, w: World) returns (versions: seq<TlsVersion>)
    ensures versions == TlsVersionsNamed(names, w)
  {
    if |names| == 0 {
      return [];
    }
    var tlsVersions := new TlsVersion[|names|](_ => TLS_1_2);
    for i := 0 to |names|
      invariant forall j :: 0 <= j < i ==> tlsVersions[j] == w.tlsForJavaName(names[j])
    {
      tlsVersions[i] := w.tlsForJavaName(names[i]);
    }
    versions := tlsVersions[..];
  }

  function ProbeTlsVersions(c: ConfigData, w: World): (r: ConfigData)
    ensures r == c.(tlsVersions := r.tlsVersions)
    ensures TLS_VERSIONS in w.props && w.props[TLS_VERSIONS] != "" ==>
            r.tlsVersions == Some(TlsVersionsNamed(JavaSplit(w.props[TLS_VERSIONS], ','), w))
    ensures !(TLS_VERSIONS in w.props && w.props[TLS_VERSIONS] != "") ==> r.tlsVersions == c.tlsVersions
  {
    var tlsVersionsVar := Lookup(w, TLS_VERSIONS);
    if tlsVersionsVar.Some? && tlsVersionsVar.value != "" then
      c.(tlsVersions := Some(TlsVersionsNamed(JavaSplit(tlsVersionsVar.value, ','), w)))
    else c
  }

  // ---------------------------------------------------------------------------
  // The whole probe
  // ---------------------------------------------------------------------------

  /**
   * The probe completes without an exception: the master URL it sets is not
   * null and every number it parses is well formed.
   */
  predicate ProbeDefined(c: ConfigData, w: World) {
    LookupOr(w, MASTER, c.masterUrl).Some? && TimingDefined(c, w)
  }

  /** `configFromSysPropsOrEnvVars`: the five stages, in source order. */
  function ConfigFromSysPropsOrEnvVars(c: ConfigData, w: World): (r: ConfigData)
    requires ProbeDefined(c, w)
    ensures r.masterUrl.Some? && IsNormalized(r.masterUrl.value)
    ensures r.masterUrl == SetMasterUrl(c.(trustCerts := r.trustCerts,
                                           disableHostnameVerification := r.disableHostnameVerification),
                                        LookupOr(w, MASTER, c.masterUrl).value, w).masterUrl
    ensures r.oauthToken == c.oauthToken
  {
    var identity := ProbeIdentity(c, w);
    var credentials := ProbeCredentials(identity, w);
    ProbeTlsVersions(ProbeProxy(ProbeTiming(credentials, w), w), w)
  }

  /**
   * For plain string fields and the boolean flags, a present variable
   * replaces the field and an absent one leaves it as it was.
   */
  lemma ProbeReplacesPresentValues(c: ConfigData, w: World)
    requires ProbeDefined(c, w)
    ensures var r := ConfigFromSysPropsOrEnvVars(c, w);
      ReplacedIfPresent(w, API_VERSION, c.apiVersion, r.apiVersion) &&
      ReplacedIfPresent(w, NAMESPACE, c.namespace, r.namespace) &&
      ReplacedIfPresent(w, CA_CERTIFICATE_FILE, c.caCertFile, r.caCertFile) &&
      ReplacedIfPresent(w, CA_CERTIFICATE_DATA, c.caCertData, r.caCertData) &&
      ReplacedIfPresent(w, CLIENT_CERTIFICATE_FILE, c.clientCertFile, r.clientCertFile) &&
      ReplacedIfPresent(w, CLIENT_CERTIFICATE_DATA, c.clientCertData, r.clientCertData) &&
      ReplacedIfPresent(w, CLIENT_KEY_FILE, c.clientKeyFile, r.clientKeyFile) &&
      ReplacedIfPresent(w, CLIENT_KEY_DATA, c.clientKeyData, r.clientKeyData) &&
      ReplacedIfPresent(w, CLIENT_KEY_PASSPHRASE, c.clientKeyPassphrase, r.clientKeyPassphrase) &&
      ReplacedIfPresent(w, USER_AGENT, c.userAgent, r.userAgent) &&
      ReplacedIfPresent(w, TRUSTSTORE_PASSPHRASE, c.trustStorePassphrase, r.trustStorePassphrase) &&
      ReplacedIfPresent(w, TRUSTSTORE_FILE, c.trustStoreFile, r.trustStoreFile) &&
      ReplacedIfPresent(w, KEYSTORE_PASSPHRASE, c.keyStorePassphrase, r.keyStorePassphrase) &&
      ReplacedIfPresent(w, KEYSTORE_FILE, c.keyStoreFile, r.keyStoreFile) &&
      ReplacedIfPresent(w, OAUTH_TOKEN, c.autoOAuthToken, r.autoOAuthToken) &&
      ReplacedIfPresent(w, AUTH_BASIC_USERNAME, c.username, r.username) &&
      ReplacedIfPresent(w, AUTH_BASIC_PASSWORD, c.password, r.password) &&
      ReplacedIfPresent(w, IMPERSONATE_USERNAME, c.requestConfig.impersonateUsername,
                        r.requestConfig.impersonateUsername) &&
      ReplacedIfPresent(w, PROXY_USERNAME, c.proxyUsername, r.proxyUsername) &&
      ReplacedIfPresent(w, PROXY_PASSWORD, c.proxyPassword, r.proxyPassword) &&
      (TRUST_CERT in w.props ==> r.trustCerts == Some(ToLower(w.props[TRUST_CERT]) == "true")) &&
      (TRUST_CERT !in w.props ==> r.trustCerts == Some(c.trustCerts.GetOr(false))) &&
      (DISABLE_HOSTNAME_VERIFICATION in w.props ==>
         r.disableHostnameVerification == Some(ToLower(w.props[DISABLE_HOSTNAME_VERIFICATION]) == "true")) &&
      (DISABLE_HOSTNAME_VERIFICATION !in w.props ==>
         r.disableHostnameVerification == Some(c.disableHostnameVerification.GetOr(false))) &&
      (HTTP2_DISABLE in w.props ==> r.http2Disable == Some(ToLower(w.props[HTTP2_DISABLE]) == "true")) &&
      (HTTP2_DISABLE !in w.props ==> r.http2Disable == Some(c.http2Disable.GetOr(false)))
  {
  }

  /**
   * The exception to that rule: an absent scale-timeout or logging-interval
   * variable resets the field to its compiled-in default, whatever it held.
   */
  lemma ProbeResetsScaleAndLogging(c: ConfigData, w: World)
    requires ProbeDefined(c, w)
    ensures SCALE_TIMEOUT !in w.props ==>
      ConfigFromSysPropsOrEnvVars(c, w).requestConfig.scaleTimeout == Some(DEFAULT_SCALE_TIMEOUT)
    ensures LOGGING_INTERVAL !in w.props ==>
      ConfigFromSysPropsOrEnvVars(c, w).requestConfig.loggingInterval == Some(DEFAULT_LOGGING_INTERVAL)
  {
  }

  /** Every other number is parsed when its variable is present and kept when it is absent. */
  lemma ProbeKeepsAbsentNumbers(c: ConfigData, w: World)
    requires ProbeDefined(c, w)
    ensures var r := ConfigFromSysPropsOrEnvVars(c, w);
      ParsedIfPresent32(w, WATCH_RECONNECT_INTERVAL, c.requestConfig.watchReconnectInterval,
                        r.requestConfig.watchReconnectInterval) &&
      ParsedIfPresent32(w, WATCH_RECONNECT_LIMIT, c.requestConfig.watchReconnectLimit,
                        r.requestConfig.watchReconnectLimit) &&
      ParsedIfPresent32(w, CONNECTION_TIMEOUT, c.connectionTimeout, r.connectionTimeout) &&
      ParsedIfPresent32(w, REQUEST_TIMEOUT, c.requestConfig.requestTimeout, r.requestConfig.requestTimeout) &&
      ParsedIfPresent32(w, UPLOAD_REQUEST_TIMEOUT, c.requestConfig.uploadRequestTimeout,
                        r.requestConfig.uploadRequestTimeout) &&
      ParsedIfPresent32(w, REQUEST_RETRY_BACKOFF_LIMIT, c.requestConfig.requestRetryBackoffLimit,
                        r.requestConfig.requestRetryBackoffLimit) &&
      ParsedIfPresent32(w, REQUEST_RETRY_BACKOFF_INTERVAL, c.requestConfig.requestRetryBackoffInterval,
                        r.requestConfig.requestRetryBackoffInterval) &&
      ParsedIfPresent64(w, WEBSOCKET_PING_INTERVAL, c.websocketPingInterval, r.websocketPingInterval) &&
      ParsedIfPresent32(w, MAX_CONCURRENT_REQUESTS, c.maxConcurrentRequests, r.maxConcurrentRequests) &&
      ParsedIfPresent32(w, MAX_CONCURRENT_REQUESTS_PER_HOST, c.maxConcurrentRequestsPerHost,
                        r.maxConcurrentRequestsPerHost)
  {
  }

  /** The probe applies the proxy precedence rule to both proxies. */
  lemma ProbeProxyPrecedence(c: ConfigData, w: World)
    requires ProbeDefined(c, w)
    ensures ProxyPrecedence(w, HTTP_PROXY, c.httpProxy, ConfigFromSysPropsOrEnvVars(c, w).httpProxy)
    ensures ProxyPrecedence(w, HTTPS_PROXY, c.httpsProxy, ConfigFromSysPropsOrEnvVars(c, w).httpsProxy)
  {
  }

  /** The probe rereads the key algorithm from the (probed) key file and data. */
  lemma ProbeKeyAlgorithm(c: ConfigData, w: World)
    requires ProbeDefined(c, w)
    ensures var r := ConfigFromSysPropsOrEnvVars(c, w);
      r.clientKeyAlgo == KeyAlgorithm(r.clientKeyFile, r.clientKeyData, w)
    ensures CLIENT_KEY_ALGO !in w.props && CLIENT_KEY_FILE !in w.props && CLIENT_KEY_DATA !in w.props &&
            c.clientKeyFile.None? && c.clientKeyData.None? ==>
            ConfigFromSysPropsOrEnvVars(c, w).clientKeyAlgo.None?
  {
  }
}
