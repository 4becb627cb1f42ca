/**
 * Where the resolver looks for configuration on disk: the home directory
 * (Config.java:919-955), the kubeconfig file list (Config.java:843-867), and
 * the in-cluster service-account fallback (Config.java:708-763, 898-917).
 */
module Discovery {
  import opened Wrappers
  import opened Text
  import opened Model
  import opened Urls

  // ---------------------------------------------------------------------------
  // Home directory
  // ---------------------------------------------------------------------------

  predicate IsWindows(osName: string) {
    StartsWith(ToLower(osName), "win")
  }

  /**
   * `getHomeDir(directoryExists, getEnvVar)`: `HOME` when it names an existing
   * directory; on Windows then `HOMEDRIVE` + `HOMEPATH` and `USERPROFILE`;
   * finally the `user.home` property, or "." when it is unset.
   */
  function GetHomeDir(directoryExists: string -> bool, getEnv: string -> Option<string>,
                      osName: string, userHome: Option<string>): (r: string)
    ensures NotNullOrEmpty(getEnv("HOME")) && directoryExists(getEnv("HOME").value) ==> r == getEnv("HOME").value
    ensures !IsWindows(osName) ==>
      r == (if NotNullOrEmpty(getEnv("HOME")) && directoryExists(getEnv("HOME").value)
            then getEnv("HOME").value else userHome.GetOr("."))
    ensures r == userHome.GetOr(".") || directoryExists(r)
  {
    var home := getEnv("HOME");
    if NotNullOrEmpty(home) && directoryExists(home.value) then home.value
    else if IsWindows(osName) then
      var homeDrive := getEnv("HOMEDRIVE");
      var homePath := getEnv("HOMEPATH");
      if NotNullOrEmpty(homeDrive) && NotNullOrEmpty(homePath) && directoryExists(homeDrive.value + homePath.value) then
        homeDrive.value + homePath.value
      else
        var userProfile := getEnv("USERPROFILE");
        if NotNullOrEmpty(userProfile) && directoryExists(userProfile.value) then userProfile.value
        else userHome.GetOr(".")
    else userHome.GetOr(".")
  }

  /** The home-directory candidates, in the order they are tried; each one is a non-empty string. */
  function HomeCandidates(getEnv: string -> Option<string>, osName: string): (r: seq<string>)
    ensures forall i :: 0 <= i < |r| ==> r[i] != ""
  {
    var home := getEnv("HOME");
    (if NotNullOrEmpty(home) then [home.value] else []) +
    (if IsWindows(osName) then WindowsCandidates(getEnv) else [])
  }

  /** Reference definition of a search: the first candidate that exists, else the fallback. */
  function FirstExisting(candidates: seq<string>, directoryExists: string -> bool, fallback: string): (r: string)
    ensures r == fallback || (r in candidates && directoryExists(r))
    ensures forall i :: 0 <= i < |candidates| && directoryExists(candidates[i]) ==>
      exists j :: 0 <= j <= i && r == candidates[j]
  {
    if |candidates| == 0 then fallback
    else if directoryExists(candidates[0]) then candidates[0]
    else
      var r := FirstExisting(candidates[1..], directoryExists, fallback);
      assert forall i :: 1 <= i < |candidates| ==> candidates[i] == candidates[1..][i - 1];
      r
  }

  lemma FirstExistingCons(x: string, rest: seq<string>, directoryExists: string -> bool, fallback: string)
    ensures FirstExisting([x] + rest, directoryExists, fallback)
         == if directoryExists(x) then x else FirstExisting(rest, directoryExists, fallback)
  {
    assert ([x] + rest)[1..] == rest;
  }

  /** The candidates tried only on Windows: `HOMEDRIVE` + `HOMEPATH`, then `USERPROFILE`. */
  function WindowsCandidates(getEnv: string -> Option<string>): seq<string> {
    var homeDrive := getEnv("HOMEDRIVE");
    var homePath := getEnv("HOMEPATH");
    var userProfile := getEnv("USERPROFILE");
    (if NotNullOrEmpty(homeDrive) && NotNullOrEmpty(homePath) then [homeDrive.value + homePath.value] else []) +
    (if NotNullOrEmpty(userProfile) then [userProfile.value] else [])
  }

  /** The Windows part of `getHomeDir` is the first-existing search over `WindowsCandidates`. */
  lemma WindowsSearchInOrder(directoryExists: string -> bool, getEnv: string -> Option<string>, fallback: string)
    ensures FirstExisting(WindowsCandidates(getEnv), directoryExists, fallback) ==
      (var homeDrive := getEnv("HOMEDRIVE");
       var homePath := getEnv("HOMEPATH");
       var userProfile := getEnv("USERPROFILE");
       if NotNullOrEmpty(homeDrive) && NotNullOrEmpty(homePath) && directoryExists(homeDrive.value + homePath.value) then
         homeDrive.value + homePath.value
       else if NotNullOrEmpty(userProfile) && directoryExists(userProfile.value) then userProfile.value
       else fallback)
  {
    var homeDrive := getEnv("HOMEDRIVE");
    var homePath := getEnv("HOMEPATH");
    var userProfile := getEnv("USERPROFILE");
    var profilePart := if NotNullOrEmpty(userProfile) then [userProfile.value] else [];
    if NotNullOrEmpty(userProfile) {
      FirstExistingCons(userProfile.value, [], directoryExists, fallback);
    }
    if NotNullOrEmpty(homeDrive) && NotNullOrEmpty(homePath) {
      FirstExistingCons(homeDrive.value + homePath.value, profilePart, directoryExists, fallback);
    } else {
      assert WindowsCandidates(getEnv) == profilePart;
    }
  }

  /** The home-directory search is the first-existing-candidate search over `HomeCandidates`. */
  lemma GetHomeDirSearchesInOrder(directoryExists: string -> bool, getEnv: string -> Option<string>,
                                  osName: string, userHome: Option<string>)
    ensures GetHomeDir(directoryExists, getEnv, osName, userHome)
         == FirstExisting(HomeCandidates(getEnv, osName), directoryExists, userHome.GetOr("."))
  {
    var home := getEnv("HOME");
    var fallback := userHome.GetOr(".");
    var windowsPart := if IsWindows(osName) then WindowsCandidates(getEnv) else [];
    var homePart := if NotNullOrEmpty(home) then [home.value] else [];
    assert HomeCandidates(getEnv, osName) == homePart + windowsPart;
    WindowsSearchInOrder(directoryExists, getEnv, fallback);
    if NotNullOrEmpty(home) {
      FirstExistingCons(home.value, windowsPart, directoryExists, fallback);
    } else {
      assert homePart + windowsPart == windowsPart;
    }
  }

  /** `isDirectoryAndExists`. */
  predicate DirectoryExists(w: World, path: string) {
    path in w.existingPaths && path in w.directories
  }

  /** `System.getenv`. */
  function SystemEnv(w: World, name: string): Option<string> {
    if name in w.sysEnv then Some(w.sysEnv[name]) else None
  }

  /** `getHomeDir()`: the search over the real environment and file system. */
  function HomeDir(w: World): (r: string)
    ensures r == w.userHome.GetOr(".") || DirectoryExists(w, r)
  {
    GetHomeDir(p => DirectoryExists(w, p), n => SystemEnv(w, n), w.osName, w.userHome)
  }

  // ---------------------------------------------------------------------------
  // Kubeconfig files
  // ---------------------------------------------------------------------------

  /** `new File(parent, child).toString()` for a non-null parent. */
  function FileJoin(parent: string, child: string, sep: char): (r: string)
    ensures parent == "" ==> r == [sep] + child
    ensures parent != "" && parent[|parent| - 1] == sep ==> r == parent + child
    ensures parent != "" && parent[|parent| - 1] != sep ==> r == parent + [sep] + child
  {
    if parent == "" then [sep] + child
    else if parent[|parent| - 1] == sep then parent + child
    else parent + [sep] + child
  }

  /** `~/.kube/config`, with the platform's separator. */
  function DefaultKubeconfigPath(w: World): string {
    FileJoin(HomeDir(w), ".kube" + [w.separator] + "config", w.separator)
  }

  /** `getKubeconfigFilenames`: the `kubeconfig` variable (or the default path) split at the path separator. */
  function KubeconfigFilenames(w: World): (r: seq<string>)
    ensures KUBECONFIG_FILE !in w.props ==> r == JavaSplit(DefaultKubeconfigPath(w), w.pathSeparator)
    ensures KUBECONFIG_FILE in w.props ==> r == JavaSplit(w.props[KUBECONFIG_FILE], w.pathSeparator)
    ensures forall i :: 0 <= i < |r| ==> w.pathSeparator !in r[i]
  {
    JavaSplit(LookupOr(w, KUBECONFIG_FILE, Some(DefaultKubeconfigPath(w))).value, w.pathSeparator)
  }

  /** A kubeconfig candidate is kept when it is a regular file that reads to a non-empty text. */
  predicate UsableKubeconfig(w: World, path: string) {
    path in w.regularFiles && path in w.fileContents && w.fileContents[path] != ""
  }

  /** The two `filter` steps of `findKubeConfigFiles`: the usable paths, in their original order. */
  function KeepUsable(w: World, paths: seq<string>): (r: seq<string>)
    ensures |r| <= |paths|
    ensures forall p :: p in r <==> p in paths && UsableKubeconfig(w, p)
    ensures (forall i :: 0 <= i < |paths| ==> UsableKubeconfig(w, paths[i])) ==> r == paths
  {
    if |paths| == 0 then []
    else if UsableKubeconfig(w, paths[0]) then [paths[0]] + KeepUsable(w, paths[1..])
    else KeepUsable(w, paths[1..])
  }

  /** Filtering keeps order: filtering a concatenation concatenates the filtered parts. */
  lemma {:induction false} KeepUsableAppend(w: World, a: seq<string>, b: seq<string>)
    ensures KeepUsable(w, a + b) == KeepUsable(w, a) + KeepUsable(w, b)
    decreases |a|
  {
    if |a| > 0 {
      assert (a + b)[1..] == a[1..] + b;
      KeepUsableAppend(w, a[1..], b);
    } else {
      assert a + b == b;
    }
  }

  /** `findKubeConfigFiles`: nothing when kubeconfig lookup is switched off, else every usable listed file. */
  function FindKubeConfigFiles(w: World): (r: seq<string>)
    ensures !LookupBool(w, AUTH_TRY_KUBECONFIG, true) ==> r == []
    ensures LookupBool(w, AUTH_TRY_KUBECONFIG, true) ==>
      forall p :: p in r <==> p in KubeconfigFilenames(w) && UsableKubeconfig(w, p)
  {
    if !LookupBool(w, AUTH_TRY_KUBECONFIG, true) then []
    else KeepUsable(w, KubeconfigFilenames(w))
  }

  /**
   * Every usable entry of the list is kept, not only the first one: when all
   * listed files are usable, all of them are returned.
   */
  lemma AllUsableKubeconfigsKept(w: World)
    requires LookupBool(w, AUTH_TRY_KUBECONFIG, true)
    requires forall i :: 0 <= i < |KubeconfigFilenames(w)| ==> UsableKubeconfig(w, KubeconfigFilenames(w)[i])
    ensures FindKubeConfigFiles(w) == KubeconfigFilenames(w)
  {
  }

  /** Two usable files listed in the `kubeconfig` variable are both returned, in their listed order. */
  lemma TwoKubeconfigsKept(w: World, first: string, second: string)
    requires w.pathSeparator !in first && w.pathSeparator !in second && second != ""
    requires KUBECONFIG_FILE in w.props && w.props[KUBECONFIG_FILE] == first + [w.pathSeparator] + second
    requires LookupBool(w, AUTH_TRY_KUBECONFIG, true)
    requires UsableKubeconfig(w, first) && UsableKubeconfig(w, second)
    ensures FindKubeConfigFiles(w) == [first, second]
  {
    assert Join([first, second], w.pathSeparator) == first + [w.pathSeparator] + second;
    JavaSplitJoin([first, second], w.pathSeparator);
  }

  // ---------------------------------------------------------------------------
  // Service-account fallback
  // ---------------------------------------------------------------------------

  /**
   * `findServiceAccountTokenFile`: the path the token variable names, whether
   * or not it exists; else the default token path when it exists; else null.
   */
  function ServiceAccountTokenFile(w: World): (r: Option<string>)
    ensures AUTH_SERVICE_ACCOUNT_TOKEN_FILE in w.props ==> r == Some(w.props[AUTH_SERVICE_ACCOUNT_TOKEN_FILE])
    ensures AUTH_SERVICE_ACCOUNT_TOKEN_FILE !in w.props ==>
      (r.Some? <==> SERVICE_ACCOUNT_TOKEN_PATH in w.existingPaths) &&
      (r.Some? ==> r.value == SERVICE_ACCOUNT_TOKEN_PATH)
  {
    if AUTH_SERVICE_ACCOUNT_TOKEN_FILE in w.props then Some(w.props[AUTH_SERVICE_ACCOUNT_TOKEN_FILE])
    else if SERVICE_ACCOUNT_TOKEN_PATH in w.existingPaths then Some(SERVICE_ACCOUNT_TOKEN_PATH)
    else None
  }

  /** The CA certificate path `tryServiceAccount` checks. */
  function ServiceAccountCaCertPath(w: World): string {
    LookupOr(w, CA_CERTIFICATE_FILE, Some(SERVICE_ACCOUNT_CA_CRT_PATH)).value
  }

  /**
   * `tryServiceAccount`: the master URL from the service host and port, then
   * (unless switched off) the CA file and the token. The flag reports whether
   * a token was read; only the master URL, the CA file and the automatic
   * token can change.
   */
  function TryServiceAccount(c: ConfigData, w: World): (r: (ConfigData, bool))
    ensures r.0 == c.(masterUrl := r.0.masterUrl, caCertFile := r.0.caCertFile, autoOAuthToken := r.0.autoOAuthToken)
    ensures SERVICE_HOST in w.props && SERVICE_PORT in w.props ==>
      r.0.masterUrl == Some(EnsureEndsWithSlash(HTTPS_PROTOCOL_PREFIX + JoinHostPort(w.props[SERVICE_HOST], w.props[SERVICE_PORT])))
    ensures !(SERVICE_HOST in w.props && SERVICE_PORT in w.props) ==> r.0.masterUrl == c.masterUrl
    ensures r.1 <==>
      LookupBool(w, AUTH_TRY_SERVICE_ACCOUNT, true) && ServiceAccountTokenFile(w).Some? &&
      ServiceAccountTokenFile(w).value in w.fileContents
    ensures r.1 ==> r.0.autoOAuthToken == Some(w.fileContents[ServiceAccountTokenFile(w).value])
    ensures !r.1 ==> r.0.autoOAuthToken == c.autoOAuthToken
    ensures LookupBool(w, AUTH_TRY_SERVICE_ACCOUNT, true) && ServiceAccountCaCertPath(w) in w.regularFiles ==>
      r.0.caCertFile == Some(ServiceAccountCaCertPath(w))
    ensures !(LookupBool(w, AUTH_TRY_SERVICE_ACCOUNT, true) && ServiceAccountCaCertPath(w) in w.regularFiles) ==>
      r.0.caCertFile == c.caCertFile
  {
    var host := Lookup(w, SERVICE_HOST);
    var port := Lookup(w, SERVICE_PORT);
    var caCertPath := ServiceAccountCaCertPath(w);
    var withMaster :=
      if host.Some? && port.Some? then
        var url := HTTPS_PROTOCOL_PREFIX + JoinHostPort(host.value, port.value);
        PrefixedHasScheme(HTTPS_PROTOCOL_PREFIX, JoinHostPort(host.value, port.value));
        SetMasterUrl(c, url, w)
      else c;
    if LookupBool(w, AUTH_TRY_SERVICE_ACCOUNT, true) then
      var withCa := if caCertPath in w.regularFiles then withMaster.(caCertFile := Some(caCertPath)) else withMaster;
      match ServiceAccountTokenFile(w)
      case Some(tokenFile) =>
        if tokenFile in w.fileContents then (withCa.(autoOAuthToken := Some(w.fileContents[tokenFile])), true)
        else (withCa, false)
      case None => (withCa, false)
    else (withMaster, false)
  }

  /** The in-cluster URL for an IPv4 service address. */
  lemma ServiceAccountUrlIPv4(c: ConfigData, w: World)
    requires SERVICE_HOST in w.props && w.props[SERVICE_HOST] == "10.0.0.1"
    requires SERVICE_PORT in w.props && w.props[SERVICE_PORT] == "443"
    ensures TryServiceAccount(c, w).0.masterUrl == Some("https://10.0.0.1:443/")
  {
    InClusterUrlIPv4();
  }

  lemma InClusterUrlIPv4()
    ensures EnsureEndsWithSlash(HTTPS_PROTOCOL_PREFIX + JoinHostPort("10.0.0.1", "443")) == "https://10.0.0.1:443/"
  {
    var host := "10.0.0.1";
    assert ':' !in host by {
      assert host == ['1', '0', '.', '0', '.', '0', '.', '1'];
    }
    var url := HTTPS_PROTOCOL_PREFIX + JoinHostPort(host, "443");
    assert url == "https://10.0.0.1:443";
    assert url[|url| - 1..] != "/";
  }

  /** The in-cluster URL for an IPv6 service address: the host is bracketed. */
  lemma ServiceAccountUrlIPv6(c: ConfigData, w: World)
    requires SERVICE_HOST in w.props && w.props[SERVICE_HOST] == "fd00::1"
    requires SERVICE_PORT in w.props && w.props[SERVICE_PORT] == "443"
    ensures TryServiceAccount(c, w).0.masterUrl == Some("https://[fd00::1]:443/")
  {
    InClusterUrlIPv6();
  }

  lemma InClusterUrlIPv6()
    ensures EnsureEndsWithSlash(HTTPS_PROTOCOL_PREFIX + JoinHostPort("fd00::1", "443")) == "https://[fd00::1]:443/"
  {
    assert "fd00::1"[4] == ':';
    var url := HTTPS_PROTOCOL_PREFIX + JoinHostPort("fd00::1", "443");
    assert url == "https://[fd00::1]:443";
    assert url[|url| - 1..] != "/";
  }

  /** The path `tryNamespaceFromPath` reads. */
  function NamespaceFilePath(w: World): string {
    LookupOr(w, NAMESPACE_FILE, Some(NAMESPACE_PATH)).value
  }

  /**
   * `tryNamespaceFromPath`: unless switched off, the namespace becomes the
   * contents of the namespace file with every line separator removed; the
   * flag reports whether it was read. Nothing else changes.
   */
  function TryNamespaceFromPath(c: ConfigData, w: World): (r: (ConfigData, bool))
    ensures r.0 == c.(namespace := r.0.namespace)
    ensures r.1 <==>
      LookupBool(w, TRY_NAMESPACE_PATH, true) && NamespaceFilePath(w) in w.regularFiles &&
      NamespaceFilePath(w) in w.fileContents
    ensures r.1 ==> r.0.namespace == Some(RemoveAll(w.fileContents[NamespaceFilePath(w)], w.lineSeparator))
    ensures !r.1 ==> r.0 == c
  {
    if LookupBool(w, TRY_NAMESPACE_PATH, true) then
      var path := NamespaceFilePath(w);
      if path in w.regularFiles && path in w.fileContents then
        (c.(namespace := Some(RemoveAll(w.fileContents[path], w.lineSeparator))), true)
      else (c, false)
    else (c, false)
  }

  /** With a one-character line separator, a namespace read from the file holds no line separator. */
  lemma NamespaceHasNoLineSeparator(c: ConfigData, w: World)
    requires |w.lineSeparator| == 1
    requires TryNamespaceFromPath(c, w).1
    ensures w.lineSeparator[0] !in TryNamespaceFromPath(c, w).0.namespace.value
  {
    assert w.lineSeparator == [w.lineSeparator[0]];
    RemoveAllSingle(w.fileContents[NamespaceFilePath(w)], w.lineSeparator[0]);
  }

  /**
   * With the two-character Windows separator, removing every occurrence does
   * not leave the namespace free of it: the occurrence formed by the `\r`
   * before and the `\n` after a removed separator stays.
   */
  lemma WindowsSeparatorCanSurvive()
    ensures RemoveAll("\r\r\n\n", "\r\n") == "\r\n"
  {
    var s := "\r\r\n\n";
    var crlf := "\r\n";
    assert s[..2][1] != crlf[1];
    assert RemoveAll(s, crlf) == [s[0]] + RemoveAll(s[1..], crlf);
    assert s[1..][..2] == crlf;
    assert s[1..][2..] == "\n";
    assert RemoveAll("\n", crlf) == "\n";
  }
}
