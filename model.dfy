/**
 * The data the Kubernetes client configuration resolver works on: the
 * resolved configuration as a value (`ConfigData`, one component per field of
 * the Java `Config` class), its retry and timing sub-record (`RequestConfig`),
 * the explicit constructor arguments (`ConfigArgs`), and the outside world it
 * reads (`World`): system properties and environment variables, the file
 * system, and the collaborators whose code is not part of this model.
 */
module Model {
  import opened Wrappers
  import opened Text

  // ---------------------------------------------------------------------------
  // Names of recognized system properties / environment variables
  // (Config.java:69-128)
  // ---------------------------------------------------------------------------

  const DISABLE_AUTO_CONFIG := "kubernetes.disable.autoConfig"
  const MASTER := "kubernetes.master"
  const API_VERSION := "kubernetes.api.version"
  const TRUST_CERT := "kubernetes.trust.certificates"
  const DISABLE_HOSTNAME_VERIFICATION := "kubernetes.disable.hostname.verification"
  const CA_CERTIFICATE_FILE := "kubernetes.certs.ca.file"
  const CA_CERTIFICATE_DATA := "kubernetes.certs.ca.data"
  const CLIENT_CERTIFICATE_FILE := "kubernetes.certs.client.file"
  const CLIENT_CERTIFICATE_DATA := "kubernetes.certs.client.data"
  const CLIENT_KEY_FILE := "kubernetes.certs.client.key.file"
  const CLIENT_KEY_DATA := "kubernetes.certs.client.key.data"
  const CLIENT_KEY_ALGO := "kubernetes.certs.client.key.algo"
  const CLIENT_KEY_PASSPHRASE := "kubernetes.certs.client.key.passphrase"
  const AUTH_BASIC_USERNAME := "kubernetes.auth.basic.username"
  const AUTH_BASIC_PASSWORD := "kubernetes.auth.basic.password"
  const AUTH_TRY_KUBECONFIG := "kubernetes.auth.tryKubeConfig"
  const AUTH_TRY_SERVICE_ACCOUNT := "kubernetes.auth.tryServiceAccount"
  const AUTH_SERVICE_ACCOUNT_TOKEN_FILE := "kubernetes.auth.serviceAccount.token"
  const OAUTH_TOKEN := "kubernetes.auth.token"
  const WATCH_RECONNECT_INTERVAL := "kubernetes.watch.reconnectInterval"
  const WATCH_RECONNECT_LIMIT := "kubernetes.watch.reconnectLimit"
  const CONNECTION_TIMEOUT := "kubernetes.connection.timeout"
  const UPLOAD_REQUEST_TIMEOUT := "kubernetes.upload.request.timeout"
  const REQUEST_TIMEOUT := "kubernetes.request.timeout"
  const REQUEST_RETRY_BACKOFF_LIMIT := "kubernetes.request.retry.backoffLimit"
  const REQUEST_RETRY_BACKOFF_INTERVAL := "kubernetes.request.retry.backoffInterval"
  const LOGGING_INTERVAL := "kubernetes.logging.interval"
  const SCALE_TIMEOUT := "kubernetes.scale.timeout"
  const WEBSOCKET_PING_INTERVAL := "kubernetes.websocket.ping.interval"
  const MAX_CONCURRENT_REQUESTS := "kubernetes.max.concurrent.requests"
  const MAX_CONCURRENT_REQUESTS_PER_HOST := "kubernetes.max.concurrent.requests.per.host"
  const IMPERSONATE_USERNAME := "kubernetes.impersonate.username"
  const IMPERSONATE_GROUP := "kubernetes.impersonate.group"
  const TRUSTSTORE_PASSPHRASE := "kubernetes.truststore.passphrase"
  const TRUSTSTORE_FILE := "kubernetes.truststore.file"
  const KEYSTORE_PASSPHRASE := "kubernetes.keystore.passphrase"
  const KEYSTORE_FILE := "kubernetes.keystore.file"
  const TLS_VERSIONS := "kubernetes.tls.versions"
  const TRY_NAMESPACE_PATH := "kubernetes.tryNamespacePath"
  const NAMESPACE_PATH := "/var/run/secrets/kubernetes.io/serviceaccount/namespace"
  const NAMESPACE_FILE := "kubenamespace"
  const NAMESPACE := "kubernetes.namespace"
  const KUBECONFIG_FILE := "kubeconfig"
  const SERVICE_HOST := "KUBERNETES_SERVICE_HOST"
  const SERVICE_PORT := "KUBERNETES_SERVICE_PORT"
  const SERVICE_ACCOUNT_TOKEN_PATH := "/var/run/secrets/kubernetes.io/serviceaccount/token"
  const SERVICE_ACCOUNT_CA_CRT_PATH := "/var/run/secrets/kubernetes.io/serviceaccount/ca.crt"
  const HTTP2_DISABLE := "http2.disable"
  const HTTP_PROXY := "http.proxy"
  const HTTPS_PROXY := "https.proxy"
  const ALL_PROXY := "all.proxy"
  const NO_PROXY := "no.proxy"
  const PROXY_USERNAME := "proxy.username"
  const PROXY_PASSWORD := "proxy.password"
  const USER_AGENT := "kubernetes.user.agent"

  // ---------------------------------------------------------------------------
  // Compiled-in defaults (Config.java:130-150)
  // ---------------------------------------------------------------------------

  const DEFAULT_MASTER_URL := "https://kubernetes.default.svc"
  const DEFAULT_SCALE_TIMEOUT: int64 := 10 * 60 * 1000
  const DEFAULT_REQUEST_TIMEOUT: int32 := 10 * 1000
  const DEFAULT_LOGGING_INTERVAL: int32 := 20 * 1000
  const DEFAULT_WEBSOCKET_PING_INTERVAL: int64 := 30 * 1000
  const DEFAULT_MAX_CONCURRENT_REQUESTS: int32 := 64
  const DEFAULT_MAX_CONCURRENT_REQUESTS_PER_HOST: int32 := 5
  const DEFAULT_REQUEST_RETRY_BACKOFFLIMIT: int32 := 10
  const DEFAULT_REQUEST_RETRY_BACKOFFINTERVAL: int32 := 100
  const DEFAULT_UPLOAD_REQUEST_TIMEOUT: int32 := 120 * 1000
  const HTTP_PROTOCOL_PREFIX := "http://"
  const HTTPS_PROTOCOL_PREFIX := "https://"
  const DEFAULT_WATCH_RECONNECT_INTERVAL: int32 := 1000
  const DEFAULT_CONNECTION_TIMEOUT: int32 := 10 * 1000
  const DEFAULT_CLIENT_KEY_PASSPHRASE := "changeit"

  // ---------------------------------------------------------------------------
  // Entities
  // ---------------------------------------------------------------------------

  /** The TLS protocol versions the client can be told to offer. */
  datatype TlsVersion = TLS_1_3 | TLS_1_2 | TLS_1_1 | TLS_1_0 | SSL_3_0

  /** A named (cluster, user, namespace) triple read from a kubeconfig file. */
  datatype NamedContext = NamedContext(
    name: Option<string>,
    cluster: Option<string>,
    user: Option<string>,
    namespace: Option<string>)

  /** The auth-provider plug-in section of a kubeconfig user. */
  datatype AuthProvider = AuthProvider(name: string, config: map<string, string>)

  /** A caller-supplied token provider, identified by the object it stands for. */
  datatype TokenProvider = TokenProvider(id: nat)

  /** The retry, timeout and impersonation settings the config delegates to. */
  datatype RequestConfig = RequestConfig(
    watchReconnectLimit: Option<int32>,
    watchReconnectInterval: Option<int32>,
    requestTimeout: Option<int32>,
    scaleTimeout: Option<int64>,
    loggingInterval: Option<int32>,
    requestRetryBackoffLimit: Option<int32>,
    requestRetryBackoffInterval: Option<int32>,
    uploadRequestTimeout: Option<int32>,
    impersonateUsername: Option<string>,
    impersonateGroups: Option<seq<string>>,
    impersonateExtras: Option<map<string, seq<string>>>)

  /** The value of every field of a `Config` object; `None` is Java's null. */
  datatype ConfigData = ConfigData(
    trustCerts: Option<bool>,
    disableHostnameVerification: Option<bool>,
    masterUrl: Option<string>,
    apiVersion: Option<string>,
    namespace: Option<string>,
    defaultNamespace: Option<bool>,
    caCertFile: Option<string>,
    caCertData: Option<string>,
    clientCertFile: Option<string>,
    clientCertData: Option<string>,
    clientKeyFile: Option<string>,
    clientKeyData: Option<string>,
    clientKeyAlgo: Option<string>,
    clientKeyPassphrase: Option<string>,
    trustStoreFile: Option<string>,
    trustStorePassphrase: Option<string>,
    keyStoreFile: Option<string>,
    keyStorePassphrase: Option<string>,
    authProvider: Option<AuthProvider>,
    username: Option<string>,
    password: Option<string>,
    oauthToken: Option<string>,
    autoOAuthToken: Option<string>,
    oauthTokenProvider: Option<TokenProvider>,
    websocketPingInterval: Option<int64>,
    connectionTimeout: Option<int32>,
    maxConcurrentRequests: Option<int32>,
    maxConcurrentRequestsPerHost: Option<int32>,
    requestConfig: RequestConfig,
    contexts: Option<seq<NamedContext>>,
    currentContext: Option<NamedContext>,
    http2Disable: Option<bool>,
    httpProxy: Option<string>,
    httpsProxy: Option<string>,
    proxyUsername: Option<string>,
    proxyPassword: Option<string>,
    noProxy: Option<seq<string>>,
    userAgent: Option<string>,
    tlsVersions: Option<seq<TlsVersion>>,
    onlyHttpWatches: Option<bool>,
    customHeaders: Option<map<string, string>>,
    autoConfigure: Option<bool>)

  /** The arguments of the all-arguments constructor, in declaration order (Config.java:382-395). */
  datatype ConfigArgs = ConfigArgs(
    masterUrl: Option<string>,
    apiVersion: Option<string>,
    namespace: Option<string>,
    trustCerts: Option<bool>,
    disableHostnameVerification: Option<bool>,
    caCertFile: Option<string>,
    caCertData: Option<string>,
    clientCertFile: Option<string>,
    clientCertData: Option<string>,
    clientKeyFile: Option<string>,
    clientKeyData: Option<string>,
    clientKeyAlgo: Option<string>,
    clientKeyPassphrase: Option<string>,
    username: Option<string>,
    password: Option<string>,
    oauthToken: Option<string>,
    autoOAuthToken: Option<string>,
    watchReconnectInterval: Option<int32>,
    watchReconnectLimit: Option<int32>,
    connectionTimeout: Option<int32>,
    requestTimeout: Option<int32>,
    scaleTimeout: Option<int64>,
    loggingInterval: Option<int32>,
    maxConcurrentRequests: Option<int32>,
    maxConcurrentRequestsPerHost: Option<int32>,
    http2Disable: Option<bool>,
    httpProxy: Option<string>,
    httpsProxy: Option<string>,
    noProxy: Option<seq<string>>,
    userAgent: Option<string>,
    tlsVersions: Option<seq<TlsVersion>>,
    websocketPingInterval: Option<int64>,
    proxyUsername: Option<string>,
    proxyPassword: Option<string>,
    trustStoreFile: Option<string>,
    trustStorePassphrase: Option<string>,
    keyStoreFile: Option<string>,
    keyStorePassphrase: Option<string>,
    impersonateUsername: Option<string>,
    impersonateGroups: Option<seq<string>>,
    impersonateExtras: Option<map<string, seq<string>>>,
    oauthTokenProvider: Option<TokenProvider>,
    customHeaders: Option<map<string, string>>,
    requestRetryBackoffLimit: Option<int32>,
    requestRetryBackoffInterval: Option<int32>,
    uploadRequestTimeout: Option<int32>,
    onlyHttpWatches: Option<bool>,
    currentContext: Option<NamedContext>,
    contexts: Option<seq<NamedContext>>,
    autoConfigure: Option<bool>)

  /** Every argument null except `autoConfigure`: the `Config(boolean)` constructor (Config.java:300-315). */
  function NoArgs(autoConfigure: bool): ConfigArgs {
    ConfigArgs(None, None, None, None, None, None, None, None, None, None,
               None, None, None, None, None, None, None, None, None, None,
               None, None, None, None, None, None, None, None, None, None,
               None, None, None, None, None, None, None, None, None, None,
               None, None, None, None, None, None, None, None, None, Some(autoConfigure))
  }

  /**
   * What the resolver reads from outside itself. The last five components
   * stand for collaborators whose code is not part of this model.
   */
  datatype World = World(
    /** System properties and environment variables, as `Utils.getSystemPropertyOrEnvVar` sees them. */
    props: map<string, string>,
    /** The process environment, as `System.getenv` sees it. */
    sysEnv: map<string, string>,
    /** `System.getProperty("os.name")`. */
    osName: string,
    /** `System.getProperty("user.home")`. */
    userHome: Option<string>,
    /** Paths that exist and are directories. */
    directories: set<string>,
    /** Paths that are regular files (`File.isFile`, `Files.isRegularFile`). */
    regularFiles: set<string>,
    /** Paths that exist (`File.exists`). */
    existingPaths: set<string>,
    /** Contents of every file that can be read; an absent path is an `IOException`. */
    fileContents: map<string, string>,
    /** `File.separatorChar`, `File.pathSeparatorChar`, `System.lineSeparator()`. */
    separator: char,
    pathSeparator: char,
    lineSeparator: string,
    /** `Version.clientVersion()`. */
    clientVersion: string,
    /** `SSLUtils.isHttpsAvailable(config)`. */
    httpsAvailable: ConfigData -> bool,
    /** `KubeConfigUtils.merge(config, context, parseConfig(files)...)`. */
    merge: (ConfigData, Option<string>, seq<string>) -> ConfigData,
    /** `KubeConfigUtils.getFileFromContext(context)`. */
    fileForContext: Option<NamedContext> -> Option<string>,
    /** The text of `CertUtils.getInputStreamFromDataOrFile(data, file)`; `None` is an `IOException`. */
    keyMaterial: (Option<string>, Option<string>) -> Option<string>,
    /** `TlsVersion.forJavaName(name)`. */
    tlsForJavaName: string -> TlsVersion)

  // ---------------------------------------------------------------------------
  // Utils.getSystemPropertyOrEnvVar and Utils.isNullOrEmpty
  // ---------------------------------------------------------------------------

  /** The one-argument lookup: null when the variable is absent. */
  function Lookup(w: World, name: string): (r: Option<string>)
    ensures name in w.props <==> r.Some?
    ensures name in w.props ==> r.value == w.props[name]
  {
    if name in w.props then Some(w.props[name]) else None
  }

  /** The lookup with a string default. */
  function LookupOr(w: World, name: string, default: Option<string>): (r: Option<string>)
    ensures name in w.props ==> r == Some(w.props[name])
    ensures name !in w.props ==> r == default
  {
    if name in w.props then Some(w.props[name]) else default
  }

  /** The lookup with a boolean default; a present variable is read as `Boolean.parseBoolean` does. */
  function LookupBool(w: World, name: string, default: bool): (r: bool)
    ensures name in w.props ==> (r <==> ToLower(w.props[name]) == "true")
    ensures name !in w.props ==> r == default
  {
    if name in w.props then ToLower(w.props[name]) == "true" else default
  }

  /** A present `int` variable is one `Integer.parseInt` accepts. */
  predicate Int32Readable(w: World, name: string) {
    name !in w.props || ParseInt32(w.props[name]).Some?
  }

  /** The lookup with an `Integer` default. */
  function LookupInt32(w: World, name: string, default: Option<int32>): (r: Option<int32>)
    requires Int32Readable(w, name)
    ensures name in w.props ==> r.Some? && r.value as int == ParseDecimal(w.props[name]).value
    ensures name !in w.props ==> r == default
  {
    if name in w.props then ParseInt32(w.props[name]) else default
  }

  predicate NotNullOrEmpty(s: Option<string>) {
    s.Some? && s.value != ""
  }

  predicate NotNullOrEmptySeq<T>(s: Option<seq<T>>) {
    s.Some? && |s.value| > 0
  }

  predicate NotNullOrEmptyMap<K, V>(m: Option<map<K, V>>) {
    m.Some? && |m.value| > 0
  }
}
