/**
 * Normalisation of the API server URL (Config.java:285-298) and the
 * host:port composition of the in-cluster fallback (Config.java:765-771).
 */
module Urls {
  import opened Wrappers
  import opened Text
  import opened Model

  /** The URL names a scheme the client understands, in any letter case. */
  predicate HasScheme(url: string) {
    StartsWith(ToLower(url), HTTP_PROTOCOL_PREFIX) || StartsWith(ToLower(url), HTTPS_PROTOCOL_PREFIX)
  }

  /** What every resolved master URL looks like. */
  predicate IsNormalized(url: string) {
    HasScheme(url) && EndsWith(url, "/")
  }

  /** `ensureEndsWithSlash`: a `/` is appended only when missing. */
  function EnsureEndsWithSlash(url: string): (r: string)
    ensures EndsWith(r, "/")
    ensures EndsWith(url, "/") ==> r == url
    ensures !EndsWith(url, "/") ==> r == url + "/"
  {
    if !EndsWith(url, "/") then url + "/" else url
  }

  /**
   * `ensureHttps`: a URL without a scheme gets `https://` when HTTPS is
   * available for the configuration and `http://` otherwise.
   */
  function EnsureHttps(url: string, httpsAvailable: bool): (r: string)
    ensures HasScheme(r)
    ensures HasScheme(url) ==> r == url
    ensures !HasScheme(url) && httpsAvailable ==> r == HTTPS_PROTOCOL_PREFIX + url
    ensures !HasScheme(url) && !httpsAvailable ==> r == HTTP_PROTOCOL_PREFIX + url
  {
    if !HasScheme(url) then
      var prefix := if httpsAvailable then HTTPS_PROTOCOL_PREFIX else HTTP_PROTOCOL_PREFIX;
      PrefixedHasScheme(prefix, url);
      prefix + url
    else url
  }

  lemma PrefixedHasScheme(prefix: string, url: string)
    requires prefix == HTTPS_PROTOCOL_PREFIX || prefix == HTTP_PROTOCOL_PREFIX
    ensures HasScheme(prefix + url)
  {
    assert ToLower(prefix) == prefix;
    assert StartsWith(ToLower(prefix), prefix);
    StartsWithToLowerAppend(prefix, url, prefix);
  }

  /** Both normalisation steps, in the order the resolver applies them. */
  function Normalize(url: string, httpsAvailable: bool): (r: string)
    ensures IsNormalized(r)
  {
    var withScheme := EnsureHttps(url, httpsAvailable);
    AppendKeepsScheme(withScheme, "/");
    EnsureEndsWithSlash(withScheme)
  }

  lemma AppendKeepsScheme(url: string, suffix: string)
    requires HasScheme(url)
    ensures HasScheme(url + suffix)
  {
    if StartsWith(ToLower(url), HTTP_PROTOCOL_PREFIX) {
      StartsWithToLowerAppend(url, suffix, HTTP_PROTOCOL_PREFIX);
    } else {
      StartsWithToLowerAppend(url, suffix, HTTPS_PROTOCOL_PREFIX);
    }
  }

  /**
   * A normalised URL is a fixed point: normalising it again changes nothing,
   * whatever HTTPS availability is reported the second time.
   */
  lemma NormalizeOfNormalized(url: string, httpsAvailable: bool)
    requires IsNormalized(url)
    ensures Normalize(url, httpsAvailable) == url
  {
  }

  /** Normalisation is idempotent. */
  lemma NormalizeIdempotent(url: string, first: bool, second: bool)
    ensures Normalize(Normalize(url, first), second) == Normalize(url, first)
  {
    NormalizeOfNormalized(Normalize(url, first), second);
  }

  /** A URL that already names a scheme only gets its trailing slash. */
  lemma NormalizeWithScheme(url: string, httpsAvailable: bool)
    requires HasScheme(url)
    ensures Normalize(url, httpsAvailable) == EnsureEndsWithSlash(url)
  {
  }

  /** `joinHostPort`: an IPv6 host (one holding a `:`) is bracketed. */
  function JoinHostPort(host: string, port: string): (r: string)
    ensures ':' in host ==> r == "[" + host + "]:" + port
    ensures ':' !in host ==> r == host + ":" + port
  {
    if ':' in host then "[" + host + "]:" + port else host + ":" + port
  }

  /** The host and the port can be read back from the joined form. */
  lemma JoinHostPortSplits(host: string, port: string)
    ensures var r := JoinHostPort(host, port);
      EndsWith(r, ":" + port) &&
      (if ':' in host then r[..|r| - |port| - 1] == "[" + host + "]" else r[..|r| - |port| - 1] == host)
  {
    var r := JoinHostPort(host, port);
    if ':' in host {
      assert r == ("[" + host + "]") + (":" + port);
    } else {
      assert r == host + (":" + port);
    }
  }

  /**
   * `setMasterUrl`: the raw URL is stored first, so that the HTTPS check sees
   * it, and then replaced by its normalised form; no other field changes.
   */
  function SetMasterUrl(c: ConfigData, url: string, w: World): (r: ConfigData)
    ensures r == c.(masterUrl := r.masterUrl)
    ensures r.masterUrl.Some? && IsNormalized(r.masterUrl.value)
    ensures HasScheme(url) ==> r.masterUrl == Some(EnsureEndsWithSlash(url))
    ensures !HasScheme(url) ==>
      r.masterUrl == Some(EnsureEndsWithSlash(
        (if w.httpsAvailable(c.(masterUrl := Some(url))) then HTTPS_PROTOCOL_PREFIX else HTTP_PROTOCOL_PREFIX) + url))
  {
    var staged := c.(masterUrl := Some(url));
    staged.(masterUrl := Some(Normalize(url, w.httpsAvailable(staged))))
  }

  /** Setting an already normalised URL stores it unchanged. */
  lemma SetMasterUrlNormalized(c: ConfigData, url: string, w: World)
    requires IsNormalized(url)
    ensures SetMasterUrl(c, url, w) == c.(masterUrl := Some(url))
  {
    NormalizeOfNormalized(url, w.httpsAvailable(c.(masterUrl := Some(url))));
  }
}
