/**
 * The few pieces of `java.lang.String`, `Integer`/`Long` and `BufferedReader`
 * behaviour that the configuration resolver relies on: ASCII case folding,
 * prefix and suffix tests, `split` on a one-character separator, joining,
 * `replace(target, "")`, `readLine`, `String.valueOf` and `parseInt`/`parseLong`.
 */
module Text {
  import opened Wrappers

  /** Java `int` and `long`. */
  newtype int32 = x: int | -0x8000_0000 <= x < 0x8000_0000
  newtype int64 = x: int | -0x8000_0000_0000_0000 <= x < 0x8000_0000_0000_0000

  // ---------------------------------------------------------------------------
  // Case folding, prefixes, suffixes, substrings
  // ---------------------------------------------------------------------------

  function LowerChar(c: char): char {
    if 'A' <= c <= 'Z' then (c as int - 'A' as int + 'a' as int) as char else c
  }

  /** `toLowerCase(Locale.ROOT)` on ASCII letters; every other character is kept. */
  function ToLower(s: string): (r: string)
    ensures |r| == |s|
    ensures forall i :: 0 <= i < |s| ==> r[i] == LowerChar(s[i])
  {
    seq(|s|, i requires 0 <= i < |s| => LowerChar(s[i]))
  }

  predicate StartsWith(s: string, prefix: string) {
    |prefix| <= |s| && s[..|prefix|] == prefix
  }

  predicate EndsWith(s: string, suffix: string) {
    |suffix| <= |s| && s[|s| - |suffix|..] == suffix
  }

  /** `s.contains(pattern)`. */
  predicate Contains(s: string, pattern: string)
    decreases |s|
  {
    StartsWith(s, pattern) || (|s| > 0 && Contains(s[1..], pattern))
  }

  /** Folding case distributes over concatenation. */
  lemma ToLowerAppend(a: string, b: string)
    ensures ToLower(a + b) == ToLower(a) + ToLower(b)
  {
    assert forall i :: 0 <= i < |a + b| ==> ToLower(a + b)[i] == (ToLower(a) + ToLower(b))[i];
  }

  /** Appending keeps every prefix of the folded string. */
  lemma StartsWithToLowerAppend(a: string, b: string, prefix: string)
    requires StartsWith(ToLower(a), prefix)
    ensures StartsWith(ToLower(a + b), prefix)
  {
    ToLowerAppend(a, b);
    assert (ToLower(a) + ToLower(b))[..|prefix|] == ToLower(a)[..|prefix|];
  }

  // ---------------------------------------------------------------------------
  // split / join
  // ---------------------------------------------------------------------------

  /** Every piece between separators, empty pieces included. */
  function SplitOn(s: string, sep: char): (parts: seq<string>)
    ensures |parts| >= 1
    ensures forall i :: 0 <= i < |parts| ==> sep !in parts[i]
    decreases |s|
  {
    if |s| == 0 then [""]
    else
      var rest := SplitOn(s[1..], sep);
      if s[0] == sep then [""] + rest
      else [[s[0]] + rest[0]] + rest[1..]
  }

  /** `String.join(String.valueOf(sep), parts)`, i.e. `Collectors.joining`. */
  function Join(parts: seq<string>, sep: char): string
    decreases |parts|
  {
    if |parts| == 0 then ""
    else if |parts| == 1 then parts[0]
    else parts[0] + [sep] + Join(parts[1..], sep)
  }

  /** Removes the empty strings at the end of a list. */
  function DropTrailingEmpty(parts: seq<string>): (r: seq<string>)
    ensures |r| <= |parts| && r == parts[..|r|]
    ensures |r| == 0 || r[|r| - 1] != ""
    ensures forall i :: |r| <= i < |parts| ==> parts[i] == ""
    decreases |parts|
  {
    if |parts| > 0 && parts[|parts| - 1] == "" then DropTrailingEmpty(parts[..|parts| - 1])
    else parts
  }

  /**
   * `s.split(sep)` for a separator that is not a regular-expression
   * metacharacter: a string without the separator is returned whole (even
   * when empty); otherwise the pieces are returned with trailing empty pieces
   * removed.
   */
  function JavaSplit(s: string, sep: char): (parts: seq<string>)
    ensures forall i :: 0 <= i < |parts| ==> sep !in parts[i]
    ensures sep !in s ==> parts == [s]
    ensures sep in s ==> |parts| == 0 || parts[|parts| - 1] != ""
  {
    if sep !in s then [s] else DropTrailingEmpty(SplitOn(s, sep))
  }

  lemma {:induction false} SplitOnPrefix(a: string, t: string, sep: char)
    requires sep !in a
    ensures SplitOn(a + t, sep) == [a + SplitOn(t, sep)[0]] + SplitOn(t, sep)[1..]
    decreases |a|
  {
    if |a| > 0 {
      SplitOnPrefix(a[1..], t, sep);
      assert (a + t)[1..] == a[1..] + t;
      assert [a[0]] + (a[1..] + SplitOn(t, sep)[0]) == a + SplitOn(t, sep)[0];
    } else {
      assert a + t == t;
      assert a + SplitOn(t, sep)[0] == SplitOn(t, sep)[0];
      assert [SplitOn(t, sep)[0]] + SplitOn(t, sep)[1..] == SplitOn(t, sep);
    }
  }

  /** Splitting a joined list gives the list back when no element holds the separator. */
  lemma {:induction false} SplitJoin(parts: seq<string>, sep: char)
    requires |parts| >= 1
    requires forall i :: 0 <= i < |parts| ==> sep !in parts[i]
    ensures SplitOn(Join(parts, sep), sep) == parts
    decreases |parts|
  {
    if |parts| == 1 {
      SplitOnPrefix(parts[0], "", sep);
      assert parts[0] + "" == parts[0];
    } else {
      var rest := Join(parts[1..], sep);
      SplitJoin(parts[1..], sep);
      assert Join(parts, sep) == parts[0] + ([sep] + rest);
      SplitOnPrefix(parts[0], [sep] + rest, sep);
      assert ([sep] + rest)[1..] == rest;
      assert SplitOn([sep] + rest, sep) == [""] + parts[1..];
      assert parts[0] + "" == parts[0];
      assert [parts[0]] + parts[1..] == parts;
    }
  }

  /** Joining the pieces of a split gives the string back. */
  lemma {:induction false} JoinSplit(s: string, sep: char)
    ensures Join(SplitOn(s, sep), sep) == s
    decreases |s|
  {
    if |s| > 0 {
      JoinSplit(s[1..], sep);
      var rest := SplitOn(s[1..], sep);
      if s[0] == sep {
        assert Join([""] + rest, sep) == "" + [sep] + Join(rest, sep);
      } else if |rest| == 1 {
        assert Join([[s[0]] + rest[0]] + rest[1..], sep) == [s[0]] + rest[0];
      } else {
        var parts := [[s[0]] + rest[0]] + rest[1..];
        assert parts[1..] == rest[1..];
        assert Join(rest, sep) == rest[0] + [sep] + Join(rest[1..], sep);
      }
    }
  }

  lemma JoinHoldsSeparator(parts: seq<string>, sep: char)
    requires |parts| >= 2
    ensures sep in Join(parts, sep)
  {
    assert Join(parts, sep)[|parts[0]|] == sep;
  }

  /**
   * `String.join` followed by `split` is the identity on lists whose elements
   * hold no separator and whose last element (when there are several) is not
   * empty.
   */
  lemma JavaSplitJoin(parts: seq<string>, sep: char)
    requires |parts| >= 1
    requires forall i :: 0 <= i < |parts| ==> sep !in parts[i]
    requires |parts| == 1 || parts[|parts| - 1] != ""
    ensures JavaSplit(Join(parts, sep), sep) == parts
  {
    if |parts| >= 2 {
      JoinHoldsSeparator(parts, sep);
      SplitJoin(parts, sep);
    }
  }

  /** Re-joining and re-splitting the result of a split changes nothing. */
  lemma JavaSplitStable(s: string, sep: char)
    requires Join(JavaSplit(s, sep), sep) != ""
    ensures JavaSplit(Join(JavaSplit(s, sep), sep), sep) == JavaSplit(s, sep)
  {
    JavaSplitJoin(JavaSplit(s, sep), sep);
  }

  // ---------------------------------------------------------------------------
  // replace(target, "") and readLine
  // ---------------------------------------------------------------------------

  /** `s.replace(target, "")`: left-to-right, non-overlapping occurrences are removed. */
  function RemoveAll(s: string, target: string): string
    decreases |s|
  {
    if |target| == 0 || |s| < |target| then s
    else if s[..|target|] == target then RemoveAll(s[|target|..], target)
    else [s[0]] + RemoveAll(s[1..], target)
  }

  /** Removing a one-character target leaves no occurrence of it. */
  lemma {:induction false} RemoveAllSingle(s: string, c: char)
    ensures c !in RemoveAll(s, [c])
    decreases |s|
  {
    if |s| >= 1 {
      RemoveAllSingle(s[1..], c);
      assert s[..1] == [s[0]];
      assert s[1..] == s[|[c]|..];
    }
  }

  predicate IsLineBreak(c: char) {
    c == '\n' || c == '\r'
  }

  /** Length of the first line of `s`, before its terminator. */
  function LineEnd(s: string): (k: nat)
    ensures k <= |s|
    ensures forall i :: 0 <= i < k ==> !IsLineBreak(s[i])
    ensures k < |s| ==> IsLineBreak(s[k])
    decreases |s|
  {
    if |s| == 0 || IsLineBreak(s[0]) then 0 else 1 + LineEnd(s[1..])
  }

  /**
   * The successive results of `BufferedReader.readLine` until it returns
   * null: lines end at `\n`, `\r` or `\r\n`, and a final terminator does not
   * start another line.
   */
  function ReadLines(s: string): (lines: seq<string>)
    ensures forall i, j :: 0 <= i < |lines| && 0 <= j < |lines[i]| ==> !IsLineBreak(lines[i][j])
    decreases |s|
  {
    if |s| == 0 then []
    else
      var k := LineEnd(s);
      if k == |s| then [s]
      else
        var next := if s[k] == '\r' && k + 1 < |s| && s[k + 1] == '\n' then k + 2 else k + 1;
        [s[..k]] + ReadLines(s[next..])
  }

  // ---------------------------------------------------------------------------
  // String.valueOf and Integer.parseInt / Long.parseLong
  // ---------------------------------------------------------------------------

  predicate IsDigit(c: char) {
    '0' <= c <= '9'
  }

  predicate AllDigits(s: string) {
    |s| >= 1 && forall i :: 0 <= i < |s| ==> IsDigit(s[i])
  }

  function DigitChar(d: nat): (c: char)
    requires d < 10
    ensures IsDigit(c)
  {
    ('0' as int + d) as char
  }

  function DigitValue(c: char): nat
    requires IsDigit(c)
  {
    c as int - '0' as int
  }

  /** The value of a string of decimal digits. */
  function DigitsValue(s: string): nat
    requires forall i :: 0 <= i < |s| ==> IsDigit(s[i])
    decreases |s|
  {
    if |s| == 0 then 0 else DigitsValue(s[..|s| - 1]) * 10 + DigitValue(s[|s| - 1])
  }

  /** Decimal digits of `n`, without leading zeros. */
  function NatToString(n: nat): (s: string)
    ensures AllDigits(s)
    decreases n
  {
    if n < 10 then [DigitChar(n)] else NatToString(n / 10) + [DigitChar(n % 10)]
  }

  /** `String.valueOf` of an `int` or a `long`. */
  function IntToString(n: int): string {
    if n < 0 then "-" + NatToString(-n) else NatToString(n)
  }

  /** `String.valueOf(Object)` of a boxed number: `"null"` for a null reference. */
  function ValueOf(n: Option<int>): string {
    match n
    case None => "null"
    case Some(v) => IntToString(v)
  }

  /** An optional sign followed by at least one decimal digit, of any size. */
  function ParseDecimal(s: string): Option<int> {
    if |s| >= 1 && (s[0] == '-' || s[0] == '+') then
      if AllDigits(s[1..]) then
        var magnitude: int := DigitsValue(s[1..]);
        Some(if s[0] == '-' then -magnitude else magnitude)
      else None
    else if AllDigits(s) then Some(DigitsValue(s))
    else None
  }

  /** `Integer.parseInt`: `None` where Java throws `NumberFormatException`. */
  function ParseInt32(s: string): (r: Option<int32>)
    ensures r.Some? <==> ParseDecimal(s).Some? && -0x8000_0000 <= ParseDecimal(s).value < 0x8000_0000
    ensures r.Some? ==> r.value as int == ParseDecimal(s).value
  {
    match ParseDecimal(s)
    case Some(n) => if -0x8000_0000 <= n < 0x8000_0000 then Some(n as int32) else None
    case None => None
  }

  /** `Long.parseLong`: `None` where Java throws `NumberFormatException`. */
  function ParseInt64(s: string): (r: Option<int64>)
    ensures r.Some? <==> ParseDecimal(s).Some? && -0x8000_0000_0000_0000 <= ParseDecimal(s).value < 0x8000_0000_0000_0000
    ensures r.Some? ==> r.value as int == ParseDecimal(s).value
  {
    match ParseDecimal(s)
    case Some(n) => if -0x8000_0000_0000_0000 <= n < 0x8000_0000_0000_0000 then Some(n as int64) else None
    case None => None
  }

  lemma {:induction false} NatToStringValue(n: nat)
    ensures DigitsValue(NatToString(n)) == n
    decreases n
  {
    if n >= 10 {
      NatToStringValue(n / 10);
      var s := NatToString(n);
      assert s[..|s| - 1] == NatToString(n / 10);
    }
  }

  /** Parsing what `String.valueOf` printed gives the number back. */
  lemma ParseIntToString(n: int)
    ensures ParseDecimal(IntToString(n)) == Some(n)
  {
    if n < 0 {
      NatToStringValue(-n);
      assert IntToString(n)[1..] == NatToString(-n);
    } else {
      NatToStringValue(n);
    }
  }

  lemma ParseInt32ToString(n: int32)
    ensures ParseInt32(IntToString(n as int)) == Some(n)
  {
    ParseIntToString(n as int);
  }

  lemma ParseInt64ToString(n: int64)
    ensures ParseInt64(IntToString(n as int)) == Some(n)
  {
    ParseIntToString(n as int);
  }

  /** `String.valueOf(null)` is `"null"`, which no parser accepts. */
  lemma ParseNull()
    ensures ParseDecimal(ValueOf(None)) == None
  {
    assert !IsDigit("null"[0]);
  }
}
