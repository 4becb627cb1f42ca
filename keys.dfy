/**
 * Detection of a client private key's algorithm from its PEM text
 * (Config.java:957-988).
 */
module Keys {
  import opened Wrappers
  import opened Text
  import opened Model

  const EC_HEADER := "BEGIN EC PRIVATE KEY"
  const RSA_HEADER := "BEGIN RSA PRIVATE KEY"

  /** The algorithm one line announces; on a line with both headers EC is chosen. */
  function LineAlgorithm(line: string): (r: Option<string>)
    ensures r.Some? <==> Contains(line, EC_HEADER) || Contains(line, RSA_HEADER)
    ensures r == Some("EC") <==> Contains(line, EC_HEADER)
    ensures r == Some("RSA") <==> !Contains(line, EC_HEADER) && Contains(line, RSA_HEADER)
  {
    if Contains(line, EC_HEADER) then Some("EC")
    else if Contains(line, RSA_HEADER) then Some("RSA")
    else None
  }

  /** Reference definition: the algorithm announced by the last line that announces one. */
  function LastAnnounced(lines: seq<string>): Option<string>
    decreases |lines|
  {
    if |lines| == 0 then None
    else if LineAlgorithm(lines[|lines| - 1]).Some? then LineAlgorithm(lines[|lines| - 1])
    else LastAnnounced(lines[..|lines| - 1])
  }

  /**
   * The reference definition picks the last matching line: no algorithm
   * exactly when no line has a header, and otherwise the algorithm of a line
   * after which no line has one.
   */
  lemma {:induction false} LastAnnouncedIsLastMatch(lines: seq<string>)
    ensures LastAnnounced(lines).None? <==> forall i :: 0 <= i < |lines| ==> LineAlgorithm(lines[i]).None?
    ensures LastAnnounced(lines).Some? ==>
      exists k :: 0 <= k < |lines| && LineAlgorithm(lines[k]) == LastAnnounced(lines) &&
        forall j :: k < j < |lines| ==> LineAlgorithm(lines[j]).None?
    decreases |lines|
  {
    if |lines| > 0 {
      var init := lines[..|lines| - 1];
      LastAnnouncedIsLastMatch(init);
      assert forall i :: 0 <= i < |init| ==> init[i] == lines[i];
      if LineAlgorithm(lines[|lines| - 1]).None? {
        if LastAnnounced(lines).Some? {
          var k :| 0 <= k < |init| && LineAlgorithm(init[k]) == LastAnnounced(init) &&
            forall j :: k < j < |init| ==> LineAlgorithm(init[j]).None?;
          assert LineAlgorithm(lines[k]) == LastAnnounced(lines);
        }
      }
    }
  }

  /** Whenever a line with a header is followed by no other header, that line decides. */
  lemma LastHeaderDecides(lines: seq<string>, k: nat)
    requires k < |lines| && LineAlgorithm(lines[k]).Some?
    requires forall j :: k < j < |lines| ==> LineAlgorithm(lines[j]).None?
    ensures LastAnnounced(lines) == LineAlgorithm(lines[k])
  {
    LastAnnouncedIsLastMatch(lines);
    var m :| 0 <= m < |lines| && LineAlgorithm(lines[m]) == LastAnnounced(lines) &&
      forall j :: m < j < |lines| ==> LineAlgorithm(lines[j]).None?;
    assert m == k;
  }

  lemma {:induction false} LastAnnouncedValues(lines: seq<string>)
    ensures LastAnnounced(lines) == None || LastAnnounced(lines) == Some("EC") || LastAnnounced(lines) == Some("RSA")
    decreases |lines|
  {
    if |lines| > 0 {
      LastAnnouncedValues(lines[..|lines| - 1]);
    }
  }

  /** `getKeyAlgorithm(InputStream)`: reads the text line by line, each header line overriding the last. */
  method KeyAlgorithmOfText(text: string) returns (algorithm: Option<string>)
    ensures algorithm == LastAnnounced(ReadLines(text))
  {
    var lines := ReadLines(text);
    algorithm := None;
    var i := 0;
    while i < |lines|
      invariant 0 <= i <= |lines|
      invariant algorithm == LastAnnounced(lines[..i])
    {
      assert lines[..i + 1][..i] == lines[..i];
      if Contains(lines[i], EC_HEADER) {
        algorithm := Some("EC");
      } else if Contains(lines[i], RSA_HEADER) {
        algorithm := Some("RSA");
      }
      i := i + 1;
    }
    assert lines[..i] == lines;
  }

  /**
   * `getKeyAlgorithm(clientKeyFile, clientKeyData)`: a set key-algorithm
   * variable is returned without reading the key; a key that cannot be read,
   * or no key at all, gives null.
   */
  function KeyAlgorithm(clientKeyFile: Option<string>, clientKeyData: Option<string>, w: World): (r: Option<string>)
    ensures CLIENT_KEY_ALGO in w.props ==> r == Some(w.props[CLIENT_KEY_ALGO])
    ensures CLIENT_KEY_ALGO !in w.props && clientKeyData.None? && clientKeyFile.None? ==> r.None?
    ensures CLIENT_KEY_ALGO !in w.props && r.Some? ==> r == Some("EC") || r == Some("RSA")
    ensures CLIENT_KEY_ALGO !in w.props && (clientKeyData.Some? || clientKeyFile.Some?) &&
            w.keyMaterial(clientKeyData, clientKeyFile).Some? ==>
            r == LastAnnounced(ReadLines(w.keyMaterial(clientKeyData, clientKeyFile).value))
    ensures CLIENT_KEY_ALGO !in w.props && w.keyMaterial(clientKeyData, clientKeyFile).None? ==> r.None?
  {
    if CLIENT_KEY_ALGO in w.props then Some(w.props[CLIENT_KEY_ALGO])
    else if clientKeyData.Some? || clientKeyFile.Some? then
      match w.keyMaterial(clientKeyData, clientKeyFile)
      case Some(text) =>
        LastAnnouncedValues(ReadLines(text));
        LastAnnounced(ReadLines(text))
      case None => None
    else None
  }

  /** The imperative form of `KeyAlgorithm`, scanning the key text with `KeyAlgorithmOfText`. */
  method GetKeyAlgorithm(clientKeyFile: Option<string>, clientKeyData: Option<string>, w: World)
    returns (algorithm: Option<string>)
    ensures algorithm == KeyAlgorithm(clientKeyFile, clientKeyData, w)
  {
    if CLIENT_KEY_ALGO in w.props {
      return Some(w.props[CLIENT_KEY_ALGO]);
    }
    algorithm := None;
    if clientKeyData.Some? || clientKeyFile.Some? {
      var text := w.keyMaterial(clientKeyData, clientKeyFile);
      if text.Some? {
        algorithm := KeyAlgorithmOfText(text.value);
      }
    }
  }
}
