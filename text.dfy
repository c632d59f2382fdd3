/**
 * Strings as the screens use them: `String.prototype.trim`, the truthiness
 * test on a trimmed input, and `Array.prototype.join` with its inverse.
 * A string is a sequence of Unicode scalar values.
 */
module Text {

  /** ECMAScript WhiteSpace and LineTerminator code points: the characters `trim` removes. */
  predicate IsWhiteSpace(c: char) {
    // WhiteSpace: TAB, VT, FF, ZWNBSP and the Zs (space separator) category
    || c == '\U{0009}' || c == '\U{000B}' || c == '\U{000C}' || c == '\U{FEFF}'
    || c == '\U{0020}' || c == '\U{00A0}' || c == '\U{1680}'
    || ('\U{2000}' <= c <= '\U{200A}')
    || c == '\U{202F}' || c == '\U{205F}' || c == '\U{3000}'
    // LineTerminator: LF, CR, LINE SEPARATOR, PARAGRAPH SEPARATOR
    || c == '\U{000A}' || c == '\U{000D}' || c == '\U{2028}' || c == '\U{2029}'
  }

  predicate AllWhiteSpace(s: string) {
    forall k :: 0 <= k < |s| ==> IsWhiteSpace(s[k])
  }

  /** Neither end of `s` is whitespace (vacuously true of the empty string). */
  predicate IsTrimmed(s: string) {
    s == [] || (!IsWhiteSpace(s[0]) && !IsWhiteSpace(s[|s| - 1]))
  }

  /** Length of the longest whitespace prefix of `s`. */
  function LeadingWhiteSpace(s: string): (n: nat)
    ensures n <= |s|
    ensures AllWhiteSpace(s[..n])
    ensures n < |s| ==> !IsWhiteSpace(s[n])
  {
    if s == [] || !IsWhiteSpace(s[0]) then 0 else 1 + LeadingWhiteSpace(s[1..])
  }

  /** Length of the longest whitespace suffix of `s`. */
  function TrailingWhiteSpace(s: string): (n: nat)
    ensures n <= |s|
    ensures AllWhiteSpace(s[|s| - n..])
    ensures n < |s| ==> !IsWhiteSpace(s[|s| - 1 - n])
  {
    if s == [] || !IsWhiteSpace(s[|s| - 1]) then 0 else 1 + TrailingWhiteSpace(s[..|s| - 1])
  }

  /** `s.trim()`: `s` without its leading and trailing whitespace. */
  function Trim(s: string): (r: string)
    ensures IsTrimmed(r)
    ensures |r| <= |s|
    ensures r == [] <==> AllWhiteSpace(s)
  {
    var t := s[LeadingWhiteSpace(s)..];
    assert t != [] ==> !IsWhiteSpace(t[0]);
    assert t == [] ==> AllWhiteSpace(s) by {
      if t == [] { assert s == s[..LeadingWhiteSpace(s)]; }
    }
    t[..|t| - TrailingWhiteSpace(t)]
  }

  /** The condition `if (s.trim())`: the trimmed input is the empty string, which is falsy. */
  predicate IsBlank(s: string)
    ensures IsBlank(s) <==> AllWhiteSpace(s)
  {
    Trim(s) == []
  }

  /** The whitespace prefix ends at the first character that is not whitespace. */
  lemma LeadingWhiteSpaceAt(s: string, lo: nat)
    requires lo < |s| && AllWhiteSpace(s[..lo]) && !IsWhiteSpace(s[lo])
    ensures LeadingWhiteSpace(s) == lo
  {
    var n := LeadingWhiteSpace(s);
    assert forall k :: 0 <= k < n ==> IsWhiteSpace(s[k]) by {
      forall k | 0 <= k < n ensures IsWhiteSpace(s[k]) { assert s[k] == s[..n][k]; }
    }
    assert forall k :: 0 <= k < lo ==> IsWhiteSpace(s[k]) by {
      forall k | 0 <= k < lo ensures IsWhiteSpace(s[k]) { assert s[k] == s[..lo][k]; }
    }
  }

  /** The whitespace suffix starts right after the last character that is not whitespace. */
  lemma TrailingWhiteSpaceAt(t: string, j: nat)
    requires j < |t| && !IsWhiteSpace(t[j]) && AllWhiteSpace(t[j + 1..])
    ensures TrailingWhiteSpace(t) == |t| - 1 - j
  {
    var m := TrailingWhiteSpace(t);
    assert forall k :: |t| - m <= k < |t| ==> IsWhiteSpace(t[k]) by {
      forall k | |t| - m <= k < |t| ensures IsWhiteSpace(t[k]) {
        assert t[k] == t[|t| - m..][k - (|t| - m)];
      }
    }
    assert forall k :: j < k < |t| ==> IsWhiteSpace(t[k]) by {
      forall k | j < k < |t| ensures IsWhiteSpace(t[k]) { assert t[k] == t[j + 1..][k - (j + 1)]; }
    }
  }

  /**
   * `Trim` is determined by its meaning: whenever `s` splits into a whitespace
   * prefix, a trimmed middle and a whitespace suffix, the middle is `Trim(s)`.
   */
  lemma TrimUnique(s: string, lo: nat, hi: nat)
    requires lo <= hi <= |s|
    requires AllWhiteSpace(s[..lo]) && AllWhiteSpace(s[hi..])
    requires IsTrimmed(s[lo..hi])
    ensures Trim(s) == s[lo..hi]
  {
    if lo == hi {
      forall k | 0 <= k < |s| ensures IsWhiteSpace(s[k]) {
        if k < lo { assert s[k] == s[..lo][k]; } else { assert s[k] == s[hi..][k - hi]; }
      }
    } else {
      assert s[lo] == s[lo..hi][0];
      LeadingWhiteSpaceAt(s, lo);
      var t := s[lo..];
      assert t[hi - lo - 1] == s[lo..hi][hi - lo - 1];
      assert t[hi - lo..] == s[hi..];
      TrailingWhiteSpaceAt(t, hi - lo - 1);
    }
  }

  /** Trimming twice is trimming once. */
  lemma TrimIdempotent(s: string)
    ensures Trim(Trim(s)) == Trim(s)
  {
    var t := Trim(s);
    assert t[0..|t|] == t;
    TrimUnique(t, 0, |t|);
  }

  /** `parts.join(sep)` for a one-character separator; `[].join(sep)` is the empty string. */
  function Join(parts: seq<string>, sep: char): (r: string)
    ensures parts == [] ==> r == ""
    ensures |parts| == 1 ==> r == parts[0]
    ensures |parts| >= 1 ==> |parts[0]| <= |r| && r[..|parts[0]|] == parts[0]
    ensures |parts| >= 2 ==> |parts[0]| < |r| && r[|parts[0]|] == sep
  {
    if |parts| == 0 then ""
    else if |parts| == 1 then parts[0]
    else parts[0] + [sep] + Join(parts[1..], sep)
  }

  /** `s.split(sep)` for a one-character separator: always at least one piece. */
  function Split(s: string, sep: char): (r: seq<string>)
    ensures |r| >= 1
    ensures forall k :: 0 <= k < |r| ==> sep !in r[k]
  {
    if s == [] then [""]
    else
      var rest := Split(s[1..], sep);
      if s[0] == sep then [""] + rest
      else [[s[0]] + rest[0]] + rest[1..]
  }

  lemma {:induction false} SplitWithoutSeparator(s: string, sep: char)
    requires sep !in s
    ensures Split(s, sep) == [s]
  {
    if s != [] {
      SplitWithoutSeparator(s[1..], sep);
      assert [s[0]] + s[1..] == s;
    }
  }

  lemma {:induction false} SplitAtFirstSeparator(a: string, b: string, sep: char)
    requires sep !in a
    ensures Split(a + [sep] + b, sep) == [a] + Split(b, sep)
  {
    var s := a + [sep] + b;
    if a == [] {
      assert s[1..] == b;
    } else {
      assert s[1..] == a[1..] + [sep] + b;
      SplitAtFirstSeparator(a[1..], b, sep);
      assert [a[0]] + a[1..] == a;
    }
  }

  /** Splitting a join on its separator gives the parts back, when no part holds the separator. */
  lemma {:induction false} SplitJoin(parts: seq<string>, sep: char)
    requires |parts| >= 1
    requires forall k :: 0 <= k < |parts| ==> sep !in parts[k]
    ensures Split(Join(parts, sep), sep) == parts
  {
    if |parts| == 1 {
      SplitWithoutSeparator(parts[0], sep);
    } else {
      SplitJoin(parts[1..], sep);
      SplitAtFirstSeparator(parts[0], Join(parts[1..], sep), sep);
      assert [parts[0]] + parts[1..] == parts;
    }
  }
}
