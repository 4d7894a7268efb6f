/** The string operations the components use (`trim`, `toUpperCase`, `startsWith`,
    `split(" ")`), restricted to ASCII: whitespace is the six ASCII space characters and
    upper-casing maps only `a`..`z`. */
module Text {
  import opened Common

  /** A character JavaScript stores in one UTF-16 code unit. */
  predicate InBmp(c: char) {
    c as int < 0x1_0000
  }

  /** JavaScript's `length`: the number of UTF-16 code units, two for each character outside
      the Basic Multilingual Plane. */
  function Utf16Length(s: string): (n: nat)
    ensures |s| <= n <= 2 * |s|
  {
    if s == [] then 0 else (if InBmp(s[0]) then 1 else 2) + Utf16Length(s[1..])
  }

  /** The code-unit length equals the character count exactly when every character is in the
      Basic Multilingual Plane. */
  lemma {:induction false} Utf16LengthIsCount(s: string)
    ensures Utf16Length(s) == |s| <==> forall i :: 0 <= i < |s| ==> InBmp(s[i])
  {
    if s != [] {
      Utf16LengthIsCount(s[1..]);
      assert forall i :: 1 <= i < |s| ==> s[i] == s[1..][i - 1];
    }
  }

  predicate IsSpace(c: char) {
    c == ' ' || c == '\t' || c == '\n' || c == '\r' || c == '\U{000B}' || c == '\U{000C}'
  }

  predicate AllSpace(s: string) {
    forall i :: 0 <= i < |s| ==> IsSpace(s[i])
  }

  /** Drops the leading whitespace: the result is a suffix of `s`, everything dropped is
      whitespace, and the result does not start with whitespace. */
  function TrimStart(s: string): (r: string)
    ensures |r| <= |s| && r == s[|s| - |r|..]
    ensures AllSpace(s[..|s| - |r|])
    ensures r == [] || !IsSpace(r[0])
    decreases |s|
  {
    if s != [] && IsSpace(s[0]) then TrimStart(s[1..]) else s
  }

  /** Drops the trailing whitespace: the result is a prefix of `s`, everything dropped is
      whitespace, and the result does not end with whitespace. */
  function TrimEnd(s: string): (r: string)
    ensures |r| <= |s| && r == s[..|r|]
    ensures AllSpace(s[|r|..])
    ensures r == [] || !IsSpace(r[|r| - 1])
    decreases |s|
  {
    if s != [] && IsSpace(s[|s| - 1]) then TrimEnd(s[..|s| - 1]) else s
  }

  /** `s.trim()`: a contiguous slice of `s` with no whitespace at either end, empty exactly
      when `s` is all whitespace. */
  function Trim(s: string): (r: string)
    ensures r == [] <==> AllSpace(s)
    ensures r != [] ==> !IsSpace(r[0]) && !IsSpace(r[|r| - 1])
    ensures |r| <= |s|
  {
    var t := TrimStart(s);
    var r := TrimEnd(t);
    assert t != [] ==> !IsSpace(s[|s| - |t|]);
    assert r == [] ==> AllSpace(s) by {
      if r == [] {
        assert t[|r|..] == t;
        assert t == [];
        assert s[..|s| - |t|] == s;
      }
    }
    assert r != [] ==> r[0] == t[0];
    r
  }

  /** Trimming twice is trimming once, so text trimmed by one component and trimmed again
      by the next reaches the server unchanged. */
  lemma {:induction false} TrimIdempotent(s: string)
    ensures Trim(Trim(s)) == Trim(s)
  {
    var r := Trim(s);
    assert TrimStart(r) == r;
    assert TrimEnd(r) == r;
  }

  function UpperChar(c: char): char {
    if 'a' <= c <= 'z' then (c as int - 32) as char else c
  }

  /** `s.toUpperCase()` on ASCII letters. */
  function ToUpper(s: string): (r: string)
    ensures |r| == |s|
    ensures forall i :: 0 <= i < |s| ==> r[i] == UpperChar(s[i])
  {
    seq(|s|, i requires 0 <= i < |s| => UpperChar(s[i]))
  }

  predicate StartsWith(s: string, prefix: string) {
    |prefix| <= |s| && s[..|prefix|] == prefix
  }

  /** Index of the first occurrence of `c` in `s`, if any. */
  function IndexOf(s: string, c: char): (r: Option<nat>)
    ensures r.None? <==> c !in s
    ensures r.Some? ==> r.value < |s| && s[r.value] == c && c !in s[..r.value]
    decreases |s|
  {
    if s == [] then None
    else if s[0] == c then Some(0)
    else
      match IndexOf(s[1..], c)
      case None => None
      case Some(k) => assert s[1..][..k] == s[1..k + 1]; Some(k + 1)
  }

  /** Index of the last occurrence of `c` in `s`, if any. */
  function LastIndexOf(s: string, c: char): (r: Option<nat>)
    ensures r.None? <==> c !in s
    ensures r.Some? ==> r.value < |s| && s[r.value] == c && c !in s[r.value + 1..]
    decreases |s|
  {
    if s == [] then None
    else if s[|s| - 1] == c then Some(|s| - 1)
    else
      var p := s[..|s| - 1];
      assert s == p + [s[|s| - 1]];
      match LastIndexOf(p, c)
      case None => None
      case Some(k) => assert s[k + 1..] == p[k + 1..] + [s[|s| - 1]]; Some(k)
  }

  /** `s.split(" ")`: the pieces between single spaces, in order; consecutive spaces yield
      empty pieces and the result always has at least one piece. */
  function SplitOnSpace(s: string): (r: seq<string>)
    ensures |r| >= 1
    ensures forall k :: 0 <= k < |r| ==> ' ' !in r[k]
    decreases |s|
  {
    match IndexOf(s, ' ')
    case None => [s]
    case Some(k) => [s[..k]] + SplitOnSpace(s[k + 1..])
  }

  /** `words.join(" ")`. */
  function JoinWithSpace(words: seq<string>): string
    requires |words| >= 1
  {
    if |words| == 1 then words[0] else words[0] + " " + JoinWithSpace(words[1..])
  }

  /** Splitting on spaces loses nothing: joining the pieces back gives the original text. */
  lemma {:induction false} SplitJoinRoundTrip(s: string)
    ensures JoinWithSpace(SplitOnSpace(s)) == s
    decreases |s|
  {
    match IndexOf(s, ' ')
    case None =>
      assert SplitOnSpace(s) == [s];
    case Some(k) =>
      var rest := SplitOnSpace(s[k + 1..]);
      assert SplitOnSpace(s) == [s[..k]] + rest;
      SplitJoinRoundTrip(s[k + 1..]);
      assert ([s[..k]] + rest)[1..] == rest;
      assert JoinWithSpace([s[..k]] + rest) == s[..k] + " " + JoinWithSpace(rest);
      assert s == s[..k] + " " + s[k + 1..];
  }
}
