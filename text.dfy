/** The string primitives the source relies on: `includes`, `toLowerCase`,
    `trim` and the decimal rendering of an integer in a template literal. */
module Text {

  /** `s.includes(t)`: `t` occurs in `s` at some offset. */
  predicate Contains(s: string, t: string) {
    exists i :: 0 <= i <= |s| && OccursAt(s, t, i)
  }

  predicate OccursAt(s: string, t: string, i: int) {
    0 <= i && i + |t| <= |s| && s[i..i + |t|] == t
  }

  /** A substring cannot hold a character at position `j` if `s` has no
      such character at or after position `j`. */
  lemma MissingCharRulesOut(s: string, t: string, j: nat)
    requires j < |t| && (j > |s| || t[j] !in s[j..])
    ensures !Contains(s, t)
  {
    forall i | 0 <= i <= |s|
      ensures !OccursAt(s, t, i)
    {
      if i + |t| <= |s| {
        assert s[i..i + |t|][j] == s[i + j] == s[j..][i];
      }
    }
  }

  /** A substring cannot hold a character that `s` lacks altogether. */
  lemma MissingLetterRulesOut(s: string, t: string, c: char)
    requires c in t && c !in s
    ensures !Contains(s, t)
  {
    var j :| 0 <= j < |t| && t[j] == c;
    if j <= |s| {
      assert c !in s[j..] by {
        forall x | x in s[j..] ensures x in s {
          var k :| 0 <= k < |s[j..]| && s[j..][k] == x;
          assert s[j + k] == x;
        }
      }
    }
    MissingCharRulesOut(s, t, j);
  }

  /** Whether `s` contains some entry of `entries` (`entries.some(e => s.includes(e))`). */
  predicate ContainsAny(s: string, entries: seq<string>) {
    exists e :: e in entries && Contains(s, e)
  }

  /** The empty string contains only the empty string. */
  lemma EmptyContainsNoEntry(entries: seq<string>)
    requires "" !in entries
    ensures !ContainsAny("", entries)
  {
    forall e | e in entries ensures !Contains("", e) {
      assert |e| > 0;
    }
  }

  // ---------------------------------------------------------------- case

  /** `toLowerCase` on one character: ASCII and Latin-1 capitals are lowered,
      everything else passes through. */
  function LowerChar(c: char): (r: char)
    ensures 'A' <= c <= 'Z' ==> r as int == c as int + 32
    ensures !('A' <= c <= 'Z') && !IsUpperLatin1(c) ==> r == c
  {
    if 'A' <= c <= 'Z' || IsUpperLatin1(c) then (c as int + 32) as char else c
  }

  /** Latin-1 capitals À…Þ, except the multiplication sign. */
  predicate IsUpperLatin1(c: char) {
    '\U{C0}' <= c <= '\U{DE}' && c != '\U{D7}'
  }

  function Lower(s: string): (r: string)
    ensures |r| == |s|
    ensures forall i :: 0 <= i < |s| ==> r[i] == LowerChar(s[i])
  {
    seq(|s|, i requires 0 <= i < |s| => LowerChar(s[i]))
  }

  lemma LowerIdempotent(s: string)
    ensures Lower(Lower(s)) == Lower(s)
  {
    assert forall i :: 0 <= i < |s| ==> LowerChar(LowerChar(s[i])) == LowerChar(s[i]);
  }

  lemma LowerConcat(a: string, b: string)
    ensures Lower(a + b) == Lower(a) + Lower(b)
  {
    assert forall i :: 0 <= i < |a + b| ==> Lower(a + b)[i] == (Lower(a) + Lower(b))[i];
  }

  // ---------------------------------------------------------- whitespace

  /** ECMAScript WhiteSpace and LineTerminator code points, the set `trim` removes. */
  const Whitespace: set<char> := {
    ' ', '\t', '\n', '\r', '\U{0B}', '\U{0C}', '\U{A0}', '\U{1680}',
    '\U{2000}', '\U{2001}', '\U{2002}', '\U{2003}', '\U{2004}', '\U{2005}',
    '\U{2006}', '\U{2007}', '\U{2008}', '\U{2009}', '\U{200A}',
    '\U{2028}', '\U{2029}', '\U{202F}', '\U{205F}', '\U{3000}', '\U{FEFF}'}

  predicate IsWhitespace(c: char) {
    c in Whitespace
  }

  predicate AllWhitespace(s: string) {
    forall i :: 0 <= i < |s| ==> IsWhitespace(s[i])
  }

  /** Lowering leaves an all-whitespace string as it is. */
  lemma LowerOfWhitespace(s: string)
    requires AllWhitespace(s)
    ensures Lower(s) == s
  {
  }

  /** `s` without its leading whitespace. */
  function TrimStart(s: string): string {
    if s != [] && IsWhitespace(s[0]) then TrimStart(s[1..]) else s
  }

  /** `s` without its trailing whitespace. */
  function TrimEnd(s: string): string {
    if s != [] && IsWhitespace(s[|s| - 1]) then TrimEnd(s[..|s| - 1]) else s
  }

  /** Trimming the start keeps a suffix, drops only whitespace, and leaves
      no whitespace in front. */
  lemma {:induction false} TrimStartIsSuffix(s: string)
    ensures |TrimStart(s)| <= |s| && TrimStart(s) == s[|s| - |TrimStart(s)|..]
    ensures AllWhitespace(s[..|s| - |TrimStart(s)|])
    ensures TrimStart(s) != [] ==> !IsWhitespace(TrimStart(s)[0])
  {
    if s != [] && IsWhitespace(s[0]) {
      TrimStartIsSuffix(s[1..]);
      WhitespaceThenTail(s, |s| - |TrimStart(s)|);
    }
  }

  /** Trimming the end keeps a prefix, drops only whitespace, and leaves no
      whitespace behind. */
  lemma {:induction false} TrimEndIsPrefix(s: string)
    ensures |TrimEnd(s)| <= |s| && TrimEnd(s) == s[..|TrimEnd(s)|]
    ensures AllWhitespace(s[|TrimEnd(s)|..])
    ensures TrimEnd(s) != [] ==> !IsWhitespace(TrimEnd(s)[|TrimEnd(s)| - 1])
  {
    if s != [] && IsWhitespace(s[|s| - 1]) {
      TrimEndIsPrefix(s[..|s| - 1]);
      InitThenWhitespace(s, |TrimEnd(s)|);
    }
  }

  /** Whitespace in front of a tail whose first `k - 1` characters are
      whitespace makes `k` leading whitespace characters. */
  lemma WhitespaceThenTail(s: string, k: nat)
    requires 1 <= k <= |s| && IsWhitespace(s[0]) && AllWhitespace(s[1..][..k - 1])
    ensures s[1..][k - 1..] == s[k..] && AllWhitespace(s[..k])
  {
    forall i | 1 <= i < k ensures IsWhitespace(s[i]) {
      assert s[i] == s[1..][..k - 1][i - 1];
    }
  }

  /** Whitespace after an initial part whose characters from `k` on are
      whitespace ends `s` with whitespace from `k` on. */
  lemma InitThenWhitespace(s: string, k: nat)
    requires k < |s| && IsWhitespace(s[|s| - 1]) && AllWhitespace(s[..|s| - 1][k..])
    ensures s[..|s| - 1][..k] == s[..k] && AllWhitespace(s[k..])
  {
    forall i | k <= i < |s| - 1 ensures IsWhitespace(s[i]) {
      assert s[i] == s[..|s| - 1][k..][i - k];
    }
  }

  /** `s.trim()`: `s` with its leading and trailing whitespace removed. */
  function Trim(s: string): string {
    TrimEnd(TrimStart(s))
  }

  /** `trim` keeps one slice of `s`, dropping only whitespace around it and
      leaving no whitespace at either end. */
  lemma TrimIsSlice(s: string)
    ensures TrimOffset(s) + |Trim(s)| <= |s|
    ensures Trim(s) == s[TrimOffset(s)..TrimOffset(s) + |Trim(s)|]
    ensures AllWhitespace(s[..TrimOffset(s)]) && AllWhitespace(s[TrimOffset(s) + |Trim(s)|..])
    ensures Trim(s) != [] ==> !IsWhitespace(Trim(s)[0]) && !IsWhitespace(Trim(s)[|Trim(s)| - 1])
  {
    TrimStartIsSuffix(s);
    TrimEndIsPrefix(TrimStart(s));
    SliceChain(s, TrimStart(s), Trim(s));
  }

  /** A prefix `r` of a suffix `a` of `s` is a slice of `s`, followed by the
      rest of `a`. */
  lemma SliceChain<T>(s: seq<T>, a: seq<T>, r: seq<T>)
    requires |a| <= |s| && a == s[|s| - |a|..]
    requires |r| <= |a| && r == a[..|r|]
    ensures r == s[|s| - |a|..|s| - |a| + |r|]
    ensures s[|s| - |a| + |r|..] == a[|r|..]
  {
  }

  /** How many leading characters `trim` drops. */
  function TrimOffset(s: string): nat
  {
    TrimStartIsSuffix(s);
    |s| - |TrimStart(s)|
  }

  lemma {:induction false} TrimStartSkipsWhitespace(w: string, s: string)
    requires AllWhitespace(w)
    ensures TrimStart(w + s) == TrimStart(s)
  {
    if w != [] {
      assert (w + s)[1..] == w[1..] + s;
      TrimStartSkipsWhitespace(w[1..], s);
    } else {
      assert w + s == s;
    }
  }

  lemma {:induction false} TrimEndSkipsWhitespace(s: string, w: string)
    requires AllWhitespace(w)
    ensures TrimEnd(s + w) == TrimEnd(s)
  {
    if w != [] {
      assert (s + w)[..|s + w| - 1] == s + w[..|w| - 1];
      TrimEndSkipsWhitespace(s, w[..|w| - 1]);
    } else {
      assert s + w == s;
    }
  }

  lemma {:induction false} TrimStartOfSuffixPad(s: string, w: string)
    requires AllWhitespace(w)
    ensures TrimStart(s + w) == TrimStart(s) + w || (TrimStart(s) == [] && TrimStart(s + w) == [])
  {
    if s == [] {
      assert s + w == w;
      AllWhitespaceTrimsAway(w);
    } else if IsWhitespace(s[0]) {
      assert (s + w)[1..] == s[1..] + w;
      TrimStartOfSuffixPad(s[1..], w);
    }
  }

  lemma {:induction false} AllWhitespaceTrimsAway(w: string)
    requires AllWhitespace(w)
    ensures TrimStart(w) == []
  {
    if w != [] {
      AllWhitespaceTrimsAway(w[1..]);
    }
  }

  /** Surrounding whitespace never changes the result of `trim`. */
  lemma TrimIgnoresPadding(w1: string, s: string, w2: string)
    requires AllWhitespace(w1) && AllWhitespace(w2)
    ensures Trim(w1 + s + w2) == Trim(s)
  {
    assert w1 + s + w2 == w1 + (s + w2);
    TrimStartSkipsWhitespace(w1, s + w2);
    TrimStartOfSuffixPad(s, w2);
    if TrimStart(s) == [] && TrimStart(s + w2) == [] {
    } else {
      TrimEndSkipsWhitespace(TrimStart(s), w2);
    }
  }

  /** A string trims to nothing exactly when it is all whitespace. */
  lemma TrimEmptyIffWhitespace(s: string)
    ensures Trim(s) == [] <==> AllWhitespace(s)
  {
    if AllWhitespace(s) {
      AllWhitespaceTrimsAway(s);
    } else {
      TrimIsSlice(s);
    }
  }

  /** A string that starts and ends with non-whitespace is its own trim. */
  lemma TrimKeepsUnpadded(s: string)
    requires s != [] ==> !IsWhitespace(s[0]) && !IsWhitespace(s[|s| - 1])
    ensures Trim(s) == s
  {
    assert TrimStart(s) == s;
    assert TrimEnd(s) == s;
  }

  // ------------------------------------------------------------ numbers

  function DigitChar(d: nat): char
    requires d < 10
  {
    "0123456789"[d]
  }

  predicate IsDigit(c: char) {
    '0' <= c <= '9'
  }

  predicate AllDigits(s: string) {
    forall i :: 0 <= i < |s| ==> IsDigit(s[i])
  }

  /** The decimal text of `n`, as JavaScript prints a non-negative integer. */
  function NatText(n: nat): (r: string)
    ensures |r| > 0 && AllDigits(r)
    ensures n > 0 ==> r[0] != '0'
  {
    if n < 10 then [DigitChar(n)] else NatText(n / 10) + [DigitChar(n % 10)]
  }

  /** The value of a string of decimal digits. */
  function DigitsValue(s: string): nat
    requires AllDigits(s)
  {
    if s == [] then 0 else DigitsValue(s[..|s| - 1]) * 10 + (s[|s| - 1] as int - '0' as int)
  }

  /** Reading back the decimal text of `n` gives `n`. */
  lemma {:induction false} NatTextRoundTrip(n: nat)
    ensures DigitsValue(NatText(n)) == n
  {
    if n >= 10 {
      NatTextRoundTrip(n / 10);
      var s := NatText(n);
      assert s[..|s| - 1] == NatText(n / 10);
    }
  }

  /** The text of an integer in a template literal: a minus sign before a negative one. */
  function IntText(i: int): (r: string)
    ensures i >= 0 ==> r == NatText(i)
    ensures i < 0 ==> r == "-" + NatText(-i)
  {
    if i < 0 then "-" + NatText(-i) else NatText(i)
  }
}
