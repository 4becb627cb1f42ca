# Kubernetes client configuration resolver

This project models how the fabric8 Kubernetes client's `Config` object
resolves its settings. The model is proved in Dafny.

A configuration is assembled in this order:

1. compiled-in defaults;
2. optionally, auto-configuration. This merges the kubeconfig files, or otherwise falls back to the in-cluster service account and namespace files. It then runs the probe of system properties and environment variables, and normalises the master URL;
3. the explicit constructor arguments, where set ones win;
4. a last normalisation of the master URL.

`refresh` decides whether an existing configuration is kept or rebuilt.

The model has two layers.

- **Specification functions.** These work over a `ConfigData` record, which holds the value of every field:
  - `Urls`, `Keys`, `Discovery`, `Probe` and `Resolve` hold the functions;
  - `Text` holds the Java string and number primitives they need;
  - `Model` holds the record, the constructor's arguments, the constants and the `World`.

  The properties are proved about these functions.
- **`Client.Config` class.** It updates its fields in place, in the same order as Config.java. Each method is proved to leave the object equal to the matching specification function applied to its old state. The class keeps the 42 state-holding Java fields grouped into five records: endpoint, TLS material, credentials, client limits and network settings. `Data()` reads them back as one `ConfigData`. Config.java declares 53 instance fields. The 11 left out are the builder-only copies of the request settings at Config.java:187-203. No getter reads them, since every one reads `requestConfig`, so leaving them out changes no observable value.

Everything outside Config.java is a field of `World`:
- system properties and environment variables, as `Utils.getSystemPropertyOrEnvVar` sees them;
- `System.getenv`, `os.name` and `user.home`;
- which paths exist, are directories or are regular files, and what the readable ones contain;
- the file, path and line separators and the client version;
- stand-in functions for `SSLUtils.isHttpsAvailable`, `KubeConfigUtils.merge` (after `parseConfig`), `KubeConfigUtils.getFileFromContext`, `CertUtils.getInputStreamFromDataOrFile` and `TlsVersion.forJavaName`.

Java `null` is `None`. `Integer` and `Long` fields are the `int32` and `int64` newtypes.

Where the documentation and the code disagree, the model follows the code:
- `findKubeConfigFiles` keeps every usable file listed in the kubeconfig variable. The comment at Config.java:864-865 says only the first one is taken.
- `ensureHttps` never rewrites a URL that already names a scheme, whether or not HTTPS is available.

The source paths below are relative to the repository root.

## Model

| member | source | states |
|---|---|---|
| Urls.EnsureEndsWithSlash | kubernetes-client-api/src/main/java/io/fabric8/kubernetes/client/Config.java:285-290 | The result ends with `/`. A URL that already ends with `/` is returned unchanged, and any other URL gets exactly one `/` appended. |
| Urls.EnsureHttps | kubernetes-client-api/src/main/java/io/fabric8/kubernetes/client/Config.java:292-298 | The result has an `http://` or `https://` scheme, in any letter case. A URL that already has one is unchanged. Otherwise `https://` is prefixed when HTTPS is available, and `http://` when it is not. |
| Urls.Normalize | kubernetes-client-api/src/main/java/io/fabric8/kubernetes/client/Config.java:569-571 | Both steps together always give a scheme and a trailing slash. |
| Urls.NormalizeOfNormalized | kubernetes-client-api/src/main/java/io/fabric8/kubernetes/client/Config.java:285-298 | A URL that is already normalised is a fixed point, whatever HTTPS availability is reported. |
| Urls.NormalizeIdempotent | kubernetes-client-api/src/main/java/io/fabric8/kubernetes/client/Config.java:285-298 | Normalising twice gives the same result as normalising once. |
| Urls.NormalizeWithScheme | kubernetes-client-api/src/main/java/io/fabric8/kubernetes/client/Config.java:292-298 | A URL with a scheme only gets its trailing slash. |
| Urls.JoinHostPort | kubernetes-client-api/src/main/java/io/fabric8/kubernetes/client/Config.java:765-771 | A host containing `:` (IPv6) gives `[host]:port`. Any other host gives `host:port`. |
| Urls.JoinHostPortSplits | kubernetes-client-api/src/main/java/io/fabric8/kubernetes/client/Config.java:765-771 | The joined form ends with `:port`, and what precedes it is the host, bracketed exactly when it is IPv6. |
| Urls.SetMasterUrl | kubernetes-client-api/src/main/java/io/fabric8/kubernetes/client/Config.java:1130-1134 | Only the master URL changes, and it ends up normalised. The HTTPS check sees the raw URL already stored. |
| Urls.SetMasterUrlNormalized | kubernetes-client-api/src/main/java/io/fabric8/kubernetes/client/Config.java:1130-1134 | Setting a URL that is already normalised stores it unchanged. |
| Keys.LineAlgorithm | kubernetes-client-api/src/main/java/io/fabric8/kubernetes/client/Config.java:962-966 | A line gives EC exactly when it holds the EC header. It gives RSA exactly when it holds the RSA header and not the EC one. It gives nothing when it holds neither. |
| Keys.LastAnnounced | kubernetes-client-api/src/main/java/io/fabric8/kubernetes/client/Config.java:959-968 | No contract of its own: it is the reference scan, described by `Keys.LastAnnouncedIsLastMatch`, `Keys.LastHeaderDecides` and `Keys.LastAnnouncedValues`. |
| Keys.LastAnnouncedIsLastMatch | kubernetes-client-api/src/main/java/io/fabric8/kubernetes/client/Config.java:959-968 | The reference scan gives null exactly when no line has a header. Otherwise it gives the algorithm of a header line that no later line overrides. |
| Keys.LastHeaderDecides | kubernetes-client-api/src/main/java/io/fabric8/kubernetes/client/Config.java:959-968 | The last header line decides the result. |
| Keys.LastAnnouncedValues | kubernetes-client-api/src/main/java/io/fabric8/kubernetes/client/Config.java:962-966 | The scan gives null, EC or RSA, nothing else. |
| Keys.KeyAlgorithmOfText | kubernetes-client-api/src/main/java/io/fabric8/kubernetes/client/Config.java:957-970 | The `readLine` loop returns what the reference scan gives, so the last matching line wins. |
| Keys.KeyAlgorithm | kubernetes-client-api/src/main/java/io/fabric8/kubernetes/client/Config.java:972-988 | A set key-algorithm variable is returned as it is, without reading the key. Otherwise a readable key gives the last-header scan of its lines (`LastAnnounced`), and an unreadable or missing key gives null. Any result without the variable is EC or RSA. |
| Keys.GetKeyAlgorithm | kubernetes-client-api/src/main/java/io/fabric8/kubernetes/client/Config.java:972-988 | The method, which reads the key text, computes `KeyAlgorithm`. |
| Discovery.GetHomeDir | kubernetes-client-api/src/main/java/io/fabric8/kubernetes/client/Config.java:932-955 | An existing `HOME` directory wins. Off Windows, the result is `HOME` or else `user.home`, which defaults to `"."`. Any result is either that fallback or an existing directory. |
| Discovery.HomeCandidates | kubernetes-client-api/src/main/java/io/fabric8/kubernetes/client/Config.java:933-951 | Every candidate directory is non-empty. |
| Discovery.FirstExisting | kubernetes-client-api/src/main/java/io/fabric8/kubernetes/client/Config.java:932-955 | The search gives the fallback or an existing candidate, and that candidate comes no later than any other existing one. |
| Discovery.WindowsSearchInOrder | kubernetes-client-api/src/main/java/io/fabric8/kubernetes/client/Config.java:938-951 | On Windows, `HOMEDRIVE`+`HOMEPATH` is tried before `USERPROFILE`. |
| Discovery.GetHomeDirSearchesInOrder | kubernetes-client-api/src/main/java/io/fabric8/kubernetes/client/Config.java:932-955 | `getHomeDir` is the first-existing search over `HOME`, then (on Windows only) `HOMEDRIVE`+`HOMEPATH` and `USERPROFILE`, with `user.home` or `"."` as the fallback. |
| Discovery.HomeDir | kubernetes-client-api/src/main/java/io/fabric8/kubernetes/client/Config.java:919-930 | Over the real environment, the result is `user.home` (or `"."`) or an existing directory. |
| Discovery.KubeconfigFilenames | kubernetes-client-api/src/main/java/io/fabric8/kubernetes/client/Config.java:861-867 | The kubeconfig variable, or else `~/.kube/config`, is split at the path separator. No piece holds the separator. |
| Discovery.KeepUsable | kubernetes-client-api/src/main/java/io/fabric8/kubernetes/client/Config.java:848-858 | A path is kept exactly when it is listed and is a regular file with non-empty contents. When every path is usable, all are kept. |
| Discovery.KeepUsableAppend | kubernetes-client-api/src/main/java/io/fabric8/kubernetes/client/Config.java:848-858 | Filtering a concatenation concatenates the filtered parts, so order is kept. |
| Discovery.FindKubeConfigFiles | kubernetes-client-api/src/main/java/io/fabric8/kubernetes/client/Config.java:843-859 | When kubeconfig lookup is switched off, there are no files. Otherwise a file is returned exactly when it is listed and usable. |
| Discovery.AllUsableKubeconfigsKept | kubernetes-client-api/src/main/java/io/fabric8/kubernetes/client/Config.java:843-867 | When every listed file is usable, all of them are returned, not only the first. |
| Discovery.TwoKubeconfigsKept | kubernetes-client-api/src/main/java/io/fabric8/kubernetes/client/Config.java:843-867 | Two usable files named in the variable are both returned, in their listed order. |
| Discovery.ServiceAccountTokenFile | kubernetes-client-api/src/main/java/io/fabric8/kubernetes/client/Config.java:746-763 | A token path named by the variable is used whether or not it exists. Otherwise the default path is used when it exists, and there is none when it does not. |
| Discovery.TryServiceAccount | kubernetes-client-api/src/main/java/io/fabric8/kubernetes/client/Config.java:708-744 | Only the master URL, the CA file and the automatic token change. The URL becomes `https://` + host:port + `/` exactly when both service variables are set. The result is true exactly when the token file is read, and then the token is its contents. The CA file is set to the CA path exactly when the service-account switch is on and that path is a regular file, and is kept otherwise. |
| Discovery.ServiceAccountUrlIPv4 | kubernetes-client-api/src/main/java/io/fabric8/kubernetes/client/Config.java:715-719 | Host `10.0.0.1` and port `443` give `https://10.0.0.1:443/`. |
| Discovery.ServiceAccountUrlIPv6 | kubernetes-client-api/src/main/java/io/fabric8/kubernetes/client/Config.java:715-719 | Host `fd00::1` and port `443` give `https://[fd00::1]:443/`: the host is bracketed. |
| Discovery.TryNamespaceFromPath | kubernetes-client-api/src/main/java/io/fabric8/kubernetes/client/Config.java:898-917 | Unless switched off, a readable namespace file sets the namespace to its contents with every line separator removed, and the result is true. Otherwise nothing changes. |
| Discovery.NamespaceHasNoLineSeparator | kubernetes-client-api/src/main/java/io/fabric8/kubernetes/client/Config.java:907 | With a one-character line separator (`\n` on Unix), a namespace read from the file holds no separator character. |
| Discovery.WindowsSeparatorCanSurvive | kubernetes-client-api/src/main/java/io/fabric8/kubernetes/client/Config.java:907 | With the two-character separator `\r\n`, contents `\r\r\n\n` leave `\r\n`. Java's `replace` removes non-overlapping occurrences left to right, so one can form from the characters around a removed one. |
| Probe.ProbeIdentity | kubernetes-client-api/src/main/java/io/fabric8/kubernetes/client/Config.java:579-600 | There is a frame over the fields of lines 579-600. For each of those fields, a present variable replaces it and an absent one keeps it. The two flags are read as booleans that default to the current value. The master URL is `setMasterUrl` of the variable, or else of the current URL, applied to the configuration with the probed flags. So a URL without a scheme gets `https://` or `http://` as `isHttpsAvailable` decides, and the URL is always normalised. The key algorithm is re-derived from the probed key file and data. |
| Probe.ProbeCredentials | kubernetes-client-api/src/main/java/io/fabric8/kubernetes/client/Config.java:602-621 | The stores, tokens, basic credentials and impersonated user follow present-replaces/absent-keeps. Nothing else changes except the groups. |
| Probe.ImpersonateGroups | kubernetes-client-api/src/main/java/io/fabric8/kubernetes/client/Config.java:617-621 | A non-empty variable replaces the groups with its comma split. An empty one keeps them, and so does no variable at all, provided the list survives the join-and-split. |
| Probe.ReparseInt32 | kubernetes-client-api/src/main/java/io/fabric8/kubernetes/client/Config.java:663-673 | Re-parsing `String.valueOf` of the field gives the variable's number when the variable is present, and the field itself when it is not. |
| Probe.ReparseInt64 | kubernetes-client-api/src/main/java/io/fabric8/kubernetes/client/Config.java:657-661 | The same for the `long` ping interval. |
| Probe.ProbeTiming | kubernetes-client-api/src/main/java/io/fabric8/kubernetes/client/Config.java:623-673 | Every number is parsed when its variable is present and kept when it is absent. The exception is the scale timeout and logging interval, which are reset to their compiled-in defaults when absent. Only the timing fields change. |
| Probe.ProbeRequestTiming | kubernetes-client-api/src/main/java/io/fabric8/kubernetes/client/Config.java:623-655 | Only the request configuration and the connection timeout change. |
| Probe.ProbeClientLimits | kubernetes-client-api/src/main/java/io/fabric8/kubernetes/client/Config.java:657-673 | Only the ping interval and the two request limits change. |
| Probe.ReconnectTiming | kubernetes-client-api/src/main/java/io/fabric8/kubernetes/client/Config.java:623-632 | No contract of its own: the two watch values, described by `Probe.ProbeTiming` and `Probe.ProbeKeepsAbsentNumbers`. |
| Probe.ResetTiming | kubernetes-client-api/src/main/java/io/fabric8/kubernetes/client/Config.java:634-644 | No contract of its own: the scale timeout and logging interval read with the compiled-in defaults, described by `Probe.ProbeResetsScaleAndLogging`. |
| Probe.RequestTimeouts | kubernetes-client-api/src/main/java/io/fabric8/kubernetes/client/Config.java:648-655 | No contract of its own: the upload and request timeouts and the two retry back-off values, described by `Probe.ProbeTiming` and `Probe.ProbeKeepsAbsentNumbers`. |
| Probe.ProbeProxy | kubernetes-client-api/src/main/java/io/fabric8/kubernetes/client/Config.java:675-695 | A non-empty proxy already set is kept. Otherwise the scheme's own variable beats `all.proxy`, which beats the old value. A present `no.proxy` replaces the list with its comma split. Only the HTTP/2 switch and the proxy fields change. |
| Probe.TlsVersionsNamed | kubernetes-client-api/src/main/java/io/fabric8/kubernetes/client/Config.java:699-703 | There is one version per name, in order. |
| Probe.TlsVersionsOf | kubernetes-client-api/src/main/java/io/fabric8/kubernetes/client/Config.java:700-703 | The array-filling loop gives one version per name, in order. |
| Probe.ProbeTlsVersions | kubernetes-client-api/src/main/java/io/fabric8/kubernetes/client/Config.java:697-705 | A non-empty variable replaces the TLS versions. An absent or empty one keeps them. Nothing else changes. |
| Probe.ConfigFromSysPropsOrEnvVars | kubernetes-client-api/src/main/java/io/fabric8/kubernetes/client/Config.java:578-706 | The probe leaves a normalised master URL, namely `setMasterUrl` of the `MASTER` variable or of the current URL, with the probed flags in place. It never touches the explicit OAuth token. |
| Probe.ProbeReplacesPresentValues | kubernetes-client-api/src/main/java/io/fabric8/kubernetes/client/Config.java:579-612 | Over the whole probe, a present variable replaces each plain string field and an absent one keeps it. Each of the three flags is `"true"` (ignoring case) of a present variable, or else its old value with null read as false. |
| Probe.ProbeResetsScaleAndLogging | kubernetes-client-api/src/main/java/io/fabric8/kubernetes/client/Config.java:634-644 | An absent scale-timeout or logging-interval variable resets the field to its default, whatever it held before. |
| Probe.ProbeKeepsAbsentNumbers | kubernetes-client-api/src/main/java/io/fabric8/kubernetes/client/Config.java:623-673 | Every number other than the scale timeout and logging interval is parsed when its variable is present and kept when it is absent. This covers both watch values, the connection, request and upload timeouts, both retry back-off values, the ping interval and both request limits. |
| Probe.ProbeProxyPrecedence | kubernetes-client-api/src/main/java/io/fabric8/kubernetes/client/Config.java:680-687 | The whole probe follows the proxy precedence rule for both proxies. |
| Probe.ProbeKeyAlgorithm | kubernetes-client-api/src/main/java/io/fabric8/kubernetes/client/Config.java:597 | The probed key algorithm is re-derived from the probed key file and data. It is null when there is no key and no algorithm variable. |
| Resolve.Defaults | kubernetes-client-api/src/main/java/io/fabric8/kubernetes/client/Config.java:396-426 | Without defaults every field is null. With defaults the master URL is the in-cluster default and the API version is `v1`. |
| Resolve.AutoDiscover | kubernetes-client-api/src/main/java/io/fabric8/kubernetes/client/Config.java:263-273 | Kubeconfig files, when there are any, are merged. Otherwise the service-account and namespace fallbacks run. |
| Resolve.PostAutoConfigure | kubernetes-client-api/src/main/java/io/fabric8/kubernetes/client/Config.java:278-283 | The second normalisation after the probe changes nothing. |
| Resolve.AutoConfigure | kubernetes-client-api/src/main/java/io/fabric8/kubernetes/client/Config.java:263-276 | Afterwards `autoConfigure` is true and the master URL is normalised. |
| Resolve.AutoConfigureKeepsOAuthToken | kubernetes-client-api/src/main/java/io/fabric8/kubernetes/client/Config.java:263-283 | Without kubeconfig files, auto-configuration never touches the explicit OAuth token. |
| Resolve.NormalizeMasterUrl | kubernetes-client-api/src/main/java/io/fabric8/kubernetes/client/Config.java:569-571 | A non-empty master URL ends up normalised, and a URL with a scheme only gets its slash. A null or empty URL leaves everything unchanged. |
| Resolve.ApplyIdentityArguments | kubernetes-client-api/src/main/java/io/fabric8/kubernetes/client/Config.java:431-478 | Only the 16 identity, key and credential fields change. |
| Resolve.ApplyTimingArguments | kubernetes-client-api/src/main/java/io/fabric8/kubernetes/client/Config.java:479-517 | Only the ping interval, the connection timeout and the request configuration change. |
| Resolve.ApplyProxyArguments | kubernetes-client-api/src/main/java/io/fabric8/kubernetes/client/Config.java:518-541 | Only the HTTP/2 switch, the proxy fields, the user agent and the TLS versions change. |
| Resolve.ApplyStoreArguments | kubernetes-client-api/src/main/java/io/fabric8/kubernetes/client/Config.java:542-568 | Only the trust and key stores, the two request limits, the automatic token and the contexts change. |
| Resolve.ApplyNetworkArguments | kubernetes-client-api/src/main/java/io/fabric8/kubernetes/client/Config.java:518-568 | Only the fields of the proxy and store steps change. |
| Resolve.ApplyArguments | kubernetes-client-api/src/main/java/io/fabric8/kubernetes/client/Config.java:431-568 | The six fields no argument guards are left alone: the default namespace, the auth provider, the token provider, the custom headers, `onlyHttpWatches` and `autoConfigure`. Which argument wins is stated by `Resolve.ExplicitArgumentsWin`, `Resolve.AbsentArgumentsKeepResolvedValues` and `Resolve.FlagsOnlySwitchOn`. |
| Resolve.BeforeArguments | kubernetes-client-api/src/main/java/io/fabric8/kubernetes/client/Config.java:396-430 | No contract of its own: defaults, then auto-configuration when it is asked for. Described by `Resolve.DefaultsSetMasterUrl` and `Resolve.EmptyIsConstructedWithoutArguments`. |
| Resolve.ApplyExplicit | kubernetes-client-api/src/main/java/io/fabric8/kubernetes/client/Config.java:431-575 | After the arguments, only the master URL and the four unconditionally copied fields change: `autoConfigure`, `oauthTokenProvider`, `customHeaders` and `onlyHttpWatches`. |
| Resolve.Construct | kubernetes-client-api/src/main/java/io/fabric8/kubernetes/client/Config.java:382-576 | No contract of its own: `BeforeArguments`, then `ApplyExplicit`. Described by `Resolve.ConstructNormalizesMasterUrl`, `Resolve.EmptyIsConstructedWithoutArguments`, and through `ApplyExplicit` by the precedence lemmas. |
| Resolve.ExplicitArgumentsWin | kubernetes-client-api/src/main/java/io/fabric8/kubernetes/client/Config.java:431-568 | Each of the 44 guarded arguments other than the two flags replaces its field when given: a non-empty string, array, list or map, or a non-null number, context or `Boolean`. |
| Resolve.AbsentArgumentsKeepResolvedValues | kubernetes-client-api/src/main/java/io/fabric8/kubernetes/client/Config.java:431-568 | Each of the same 44 arguments, when null or empty, keeps the value that defaults and auto-configuration chose. |
| Resolve.FlagsOnlySwitchOn | kubernetes-client-api/src/main/java/io/fabric8/kubernetes/client/Config.java:440-445 | `trustCerts` and `disableHostnameVerification` change only for a TRUE argument, so an explicit false never clears a true. |
| Resolve.ExplicitMasterUrlWins | kubernetes-client-api/src/main/java/io/fabric8/kubernetes/client/Config.java:434-436 | An explicit master URL wins and is normalised. |
| Resolve.ExplicitKeepsMasterUrl | kubernetes-client-api/src/main/java/io/fabric8/kubernetes/client/Config.java:569-571 | A master URL resolved before the arguments is still present, and normalised, afterwards. |
| Resolve.DefaultsSetMasterUrl | kubernetes-client-api/src/main/java/io/fabric8/kubernetes/client/Config.java:396-430 | With defaults on, a master URL is set before the arguments, auto-configured or not. |
| Resolve.ConstructNormalizesMasterUrl | kubernetes-client-api/src/main/java/io/fabric8/kubernetes/client/Config.java:382-576 | With defaults on, the constructed master URL always has a scheme and a trailing slash. |
| Resolve.Empty | kubernetes-client-api/src/main/java/io/fabric8/kubernetes/client/Config.java:247-249 | `empty()` has master URL `https://kubernetes.default.svc/`, API version `v1`, no namespace, `autoConfigure` false and `onlyHttpWatches` null. |
| Resolve.EmptyIsConstructedWithoutArguments | kubernetes-client-api/src/main/java/io/fabric8/kubernetes/client/Config.java:300-315 | `empty()` is exactly the constructor run with every argument null and auto-configuration off. |
| Resolve.NoArgumentsChangeNothing | kubernetes-client-api/src/main/java/io/fabric8/kubernetes/client/Config.java:300-315 | Applying all-null arguments changes nothing. |
| Resolve.DefaultMasterUrlHasScheme | kubernetes-client-api/src/main/java/io/fabric8/kubernetes/client/Config.java:397 | The default master URL has a scheme but no trailing slash. |
| Resolve.AutoConfigureFresh | kubernetes-client-api/src/main/java/io/fabric8/kubernetes/client/Config.java:257-261 | `autoConfigure(context)` gives `autoConfigure` true and a normalised master URL. |
| Resolve.FromKubeconfig | kubernetes-client-api/src/main/java/io/fabric8/kubernetes/client/Config.java:781-789 | No contract of its own: `empty()` merged with one file. The merge is an uninterpreted parameter of the world. |
| Resolve.Refresh | kubernetes-client-api/src/main/java/io/fabric8/kubernetes/client/Config.java:820-841 | The four branches in order. An explicit OAuth token keeps the instance. Otherwise an auto-configured config is rebuilt by `autoConfigure(currentContextName)`. Otherwise a readable backing file is re-read, and post-configured unless auto-configuration is disabled. Otherwise the instance is kept. |
| Resolve.RefreshKeepsExplicitToken | kubernetes-client-api/src/main/java/io/fabric8/kubernetes/client/Config.java:822-824 | An explicit OAuth token pins the instance, whatever the automatic token holds. |
| Resolve.RefreshedUrlIsNormalized | kubernetes-client-api/src/main/java/io/fabric8/kubernetes/client/Config.java:825-837 | A rebuilt configuration has a normalised master URL, except a kubeconfig re-read while auto-configuration is disabled. |
| Text.JavaSplit | kubernetes-client-api/src/main/java/io/fabric8/kubernetes/client/Config.java:620 | `String.split` on one character. No piece holds the separator. A string without the separator is returned whole. Otherwise trailing empty pieces are dropped. |
| Text.JavaSplitJoin | kubernetes-client-api/src/main/java/io/fabric8/kubernetes/client/Config.java:617-620 | Splitting a comma join gives the list back when no element holds a comma and the last element is non-empty. |
| Text.JavaSplitStable | kubernetes-client-api/src/main/java/io/fabric8/kubernetes/client/Config.java:617-620 | Joining and re-splitting the result of a split changes nothing. |
| Text.ReadLines | kubernetes-client-api/src/main/java/io/fabric8/kubernetes/client/Config.java:961 | No line returned by `readLine` holds a line terminator. |
| Text.ParseInt32 | kubernetes-client-api/src/main/java/io/fabric8/kubernetes/client/Config.java:626 | `Integer.parseInt` on ASCII input accepts exactly the decimal numbers in the 32-bit range. |
| Text.ParseInt64 | kubernetes-client-api/src/main/java/io/fabric8/kubernetes/client/Config.java:637 | `Long.parseLong` on ASCII input accepts exactly the decimal numbers in the 64-bit range. |
| Text.ParseInt32ToString | kubernetes-client-api/src/main/java/io/fabric8/kubernetes/client/Config.java:640-643 | Parsing `String.valueOf` of an `int` gives it back. |
| Text.ParseInt64ToString | kubernetes-client-api/src/main/java/io/fabric8/kubernetes/client/Config.java:634-637 | Parsing `String.valueOf` of a `long` gives it back. |
| Text.ParseNull | kubernetes-client-api/src/main/java/io/fabric8/kubernetes/client/Config.java:657-673 | `String.valueOf(null)` is `"null"`, which parses as no number. |
| Text.RemoveAllSingle | kubernetes-client-api/src/main/java/io/fabric8/kubernetes/client/Config.java:907 | Removing a one-character separator leaves none of it. |
| Client.Config.Load | kubernetes-client-api/src/main/java/io/fabric8/kubernetes/client/Config.java:269 | Every field is overwritten with the merged configuration. |
| Client.Config.constructor | kubernetes-client-api/src/main/java/io/fabric8/kubernetes/client/Config.java:382-576 | The fields end up as `Resolve.Construct` describes. |
| Client.Config.ApplyDefaultsAndAutoConfigure | kubernetes-client-api/src/main/java/io/fabric8/kubernetes/client/Config.java:396-430 | Defaults, then auto-configuration when it is asked for. |
| Client.Config.SetDefaultValues | kubernetes-client-api/src/main/java/io/fabric8/kubernetes/client/Config.java:396-423 | The fields become `Resolve.Defaults(true, w)`. |
| Client.Config.ApplyExplicit | kubernetes-client-api/src/main/java/io/fabric8/kubernetes/client/Config.java:431-575 | The fields become `Resolve.ApplyExplicit` of the old state. |
| Client.Config.ApplyArguments | kubernetes-client-api/src/main/java/io/fabric8/kubernetes/client/Config.java:431-568 | The fields become `Resolve.ApplyArguments` of the old state. |
| Client.Config.ApplyIdentityArguments | kubernetes-client-api/src/main/java/io/fabric8/kubernetes/client/Config.java:431-478 | The fields become `Resolve.ApplyIdentityArguments` of the old state. |
| Client.Config.ApplyTimingArguments | kubernetes-client-api/src/main/java/io/fabric8/kubernetes/client/Config.java:479-517 | The fields become `Resolve.ApplyTimingArguments` of the old state. |
| Client.Config.ApplyNetworkArguments | kubernetes-client-api/src/main/java/io/fabric8/kubernetes/client/Config.java:518-568 | The fields become `Resolve.ApplyNetworkArguments` of the old state. |
| Client.Config.ApplyProxyArguments | kubernetes-client-api/src/main/java/io/fabric8/kubernetes/client/Config.java:518-541 | The fields become `Resolve.ApplyProxyArguments` of the old state. |
| Client.Config.ApplyStoreArguments | kubernetes-client-api/src/main/java/io/fabric8/kubernetes/client/Config.java:542-568 | The fields become `Resolve.ApplyStoreArguments` of the old state. |
| Client.Config.NormalizeMasterUrl | kubernetes-client-api/src/main/java/io/fabric8/kubernetes/client/Config.java:569-571 | The fields become `Resolve.NormalizeMasterUrl` of the old state. |
| Client.Config.SetMasterUrl | kubernetes-client-api/src/main/java/io/fabric8/kubernetes/client/Config.java:1130-1134 | Both writes together give `Urls.SetMasterUrl` of the old state. |
| Client.Config.ProbeIdentity | kubernetes-client-api/src/main/java/io/fabric8/kubernetes/client/Config.java:579-600 | The setter sequence gives `Probe.ProbeIdentity` of the old state. |
| Client.Config.ProbeCredentials | kubernetes-client-api/src/main/java/io/fabric8/kubernetes/client/Config.java:602-621 | The setter sequence gives `Probe.ProbeCredentials` of the old state. |
| Client.Config.ProbeTiming | kubernetes-client-api/src/main/java/io/fabric8/kubernetes/client/Config.java:623-673 | The setter sequence gives `Probe.ProbeTiming` of the old state. |
| Client.Config.ProbeRequestTiming | kubernetes-client-api/src/main/java/io/fabric8/kubernetes/client/Config.java:623-655 | The setter sequence gives `Probe.ProbeRequestTiming` of the old state. |
| Client.Config.ProbeClientLimits | kubernetes-client-api/src/main/java/io/fabric8/kubernetes/client/Config.java:657-673 | The setter sequence gives `Probe.ProbeClientLimits` of the old state. |
| Client.Config.ProbeProxy | kubernetes-client-api/src/main/java/io/fabric8/kubernetes/client/Config.java:675-695 | The setter sequence gives `Probe.ProbeProxy` of the old state. |
| Client.Config.ProbeTlsVersions | kubernetes-client-api/src/main/java/io/fabric8/kubernetes/client/Config.java:697-705 | The setter sequence gives `Probe.ProbeTlsVersions` of the old state. |
| Client.Config.ConfigFromSysPropsOrEnvVars | kubernetes-client-api/src/main/java/io/fabric8/kubernetes/client/Config.java:578-706 | The object becomes `Probe.ConfigFromSysPropsOrEnvVars` of its old state. |
| Client.Config.TryServiceAccount | kubernetes-client-api/src/main/java/io/fabric8/kubernetes/client/Config.java:708-744 | The object and the result are `Discovery.TryServiceAccount` of the old state. |
| Client.Config.TryNamespaceFromPath | kubernetes-client-api/src/main/java/io/fabric8/kubernetes/client/Config.java:898-917 | The object and the result are `Discovery.TryNamespaceFromPath` of the old state. |
| Client.Config.PostAutoConfigure | kubernetes-client-api/src/main/java/io/fabric8/kubernetes/client/Config.java:278-283 | The object becomes `Resolve.PostAutoConfigure` of its old state. |
| Client.Config.AutoConfigure | kubernetes-client-api/src/main/java/io/fabric8/kubernetes/client/Config.java:263-276 | The object becomes `Resolve.AutoConfigure` of its old state. |
| Client.Config.Discover | kubernetes-client-api/src/main/java/io/fabric8/kubernetes/client/Config.java:264-273 | The object becomes `Resolve.AutoDiscover` of its old state. |
| Client.Config.Empty | kubernetes-client-api/src/main/java/io/fabric8/kubernetes/client/Config.java:247-249 | A new object equal to `Resolve.Empty`. |
| Client.Config.AutoConfigured | kubernetes-client-api/src/main/java/io/fabric8/kubernetes/client/Config.java:257-261 | A new object equal to `Resolve.AutoConfigureFresh`. |
| Client.Config.FromKubeconfig | kubernetes-client-api/src/main/java/io/fabric8/kubernetes/client/Config.java:781-789 | A new empty object with one kubeconfig file merged in. |
| Client.Config.Refresh | kubernetes-client-api/src/main/java/io/fabric8/kubernetes/client/Config.java:820-841 | `this` exactly where `Resolve.Refresh` keeps the instance, and a new object equal to the rebuilt configuration where it replaces it. |
| Client.Config.Reread | kubernetes-client-api/src/main/java/io/fabric8/kubernetes/client/Config.java:833-837 | A new object read from the backing file, post-configured unless auto-configuration is disabled. |

## Left out

- `Utils.getSystemPropertyOrEnvVar` is one map: which of a system property or an environment variable wins, and how names are translated between the two forms, is not modelled.
- Boolean variables are read as `ToLower(value) == "true"`, with ASCII case folding only. This is how `Boolean.parseBoolean` behaves on ASCII input.
- Exceptions are excluded by preconditions, not modelled as error paths:
  - a null master URL reaching `setMasterUrl` (a `NullPointerException`);
  - a malformed number reaching `Integer.parseInt` or `Long.parseLong`, including `String.valueOf(null)`, which is `"null"` (a `NumberFormatException`);
  - unboxing a null `autoConfigure` in `refresh`.
- `KubeConfigUtils.parseConfig` and `merge`, `getFileFromContext`, `SSLUtils.isHttpsAvailable`, `CertUtils.getInputStreamFromDataOrFile`, `TlsVersion.forJavaName` and `Version.clientVersion` are uninterpreted parameters. Their code is not part of this model.
- File I/O is modelled as sets of existing paths, directories and regular files, plus a map of readable contents. `File` path normalisation, `getAbsolutePath` and character sets are not modelled. A read that throws is a path missing from the contents map.
- In the Java code `RequestConfig` is a separate mutable object that the setters update through `Config`. Here it is a record value inside the configuration, so aliasing of that object is not captured.
- The `volatile` token fields and concurrent readers are left out. So are logging, the Jackson annotations and serialisation, `additionalProperties`, the `ExecCredential` holder classes, `Readiness`, and the builder-only getters and setters.
- The `fromKubeconfig(String)`, `fromKubeconfig(File)` and deprecated three-argument overloads are left out. Only `fromKubeconfig(context, file)`, which `refresh` uses, is modelled.
- `Utils.isNotNullOrEmpty` on arrays and lists is read as "not null and of positive length".
- Client.Config.ApplyIdentityArguments, Client.Config.ApplyTimingArguments and Client.Config.ApplyNetworkArguments: each guarded assignment `if (arg set) field = arg` is written as an unconditional store of `Pick(arg, field)`. The resulting state is the same, but the states in between are not.
- Probe.ImpersonateGroups: without a variable, the join-and-split of the current group list is stated only for lists that survive it. For other lists (an element holding a comma, or a trailing empty element) the result is whatever `JavaSplit` of the join gives, which the contract does not describe further.
- Keys.KeyAlgorithm: the source logs "defaulting to RSA" when the key cannot be read, but it returns null. The model returns null.
- Discovery.NamespaceHasNoLineSeparator: stated for a one-character line separator only. With `\r\n`, the source's own `replace` can leave a separator in the namespace (`Discovery.WindowsSeparatorCanSurvive`).
- Text.ParseInt32 and Text.ParseInt64: only the ASCII digits `0`-`9` are accepted. Java's `parseInt` and `parseLong` read digits through `Character.digit`, which also accepts other Unicode decimal digits (`"٤٢"` is 42). Such a variable is treated as a `NumberFormatException` and excluded by the probe's preconditions.
- Text.ToLower and Text.JavaSplit: only ASCII letters are folded, and `split` is modelled for a single non-regex separator character, which is all Config.java uses.
