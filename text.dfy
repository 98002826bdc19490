/**
 * Character and string helpers shared by every component: case mapping,
 * substring search, whitespace stripping, replacement and slicing, with the
 * semantics of the Python and JavaScript string methods the system uses.
 * Case mapping covers ASCII letters only.
 */
module Text {

  type Str = seq<char>

  function LowerChar(c: char): char
  {
    if 'A' <= c <= 'Z' then (c as int + 32) as char else c
  }

  function UpperChar(c: char): char
  {
    if 'a' <= c <= 'z' then (c as int - 32) as char else c
  }

  predicate IsLetter(c: char)
  {
    ('a' <= c <= 'z') || ('A' <= c <= 'Z')
  }

  /** Python `str.lower()` / JavaScript `toLowerCase()` on ASCII. */
  function Lower(s: Str): (r: Str)
    ensures |r| == |s|
    ensures forall i :: 0 <= i < |s| ==> r[i] == LowerChar(s[i])
  {
    if s == [] then [] else [LowerChar(s[0])] + Lower(s[1..])
  }

  /** Python `str.upper()` / JavaScript `toUpperCase()` on ASCII. */
  function Upper(s: Str): (r: Str)
    ensures |r| == |s|
    ensures forall i :: 0 <= i < |s| ==> r[i] == UpperChar(s[i])
  {
    if s == [] then [] else [UpperChar(s[0])] + Upper(s[1..])
  }

  /** Text without upper-case letters is its own lower-case form. */
  lemma LowerNoUpper(s: Str)
    requires forall i :: 0 <= i < |s| ==> !('A' <= s[i] <= 'Z')
    ensures Lower(s) == s
  {
  }

  /** `a.lower() == b.lower()`, compared character by character. */
  predicate EqualsIgnoringCase(a: Str, b: Str)
  {
    |a| == |b| && forall i :: 0 <= i < |a| ==> LowerChar(a[i]) == LowerChar(b[i])
  }

  lemma EqualsIgnoringCaseLower(a: Str, b: Str)
    ensures EqualsIgnoringCase(a, b) <==> Lower(a) == Lower(b)
  {
    if Lower(a) == Lower(b) {
      forall i | 0 <= i < |a|
        ensures LowerChar(a[i]) == LowerChar(b[i])
      {
        assert Lower(a)[i] == Lower(b)[i];
      }
    }
  }

  predicate StartsWith(s: Str, prefix: Str)
  {
    |prefix| <= |s| && s[..|prefix|] == prefix
  }

  /** Python `sub in s` / JavaScript `s.includes(sub)`. */
  predicate Contains(s: Str, sub: Str)
    decreases |s|
  {
    StartsWith(s, sub) || (|s| > 0 && Contains(s[1..], sub))
  }

  /** Searching for a longer needle that begins with a shorter one: the
      shorter one is found whenever the longer one is. */
  lemma {:induction false} ContainsExtended(s: Str, short: Str, long: Str)
    requires StartsWith(long, short)
    requires Contains(s, long)
    ensures Contains(s, short)
  {
    if !StartsWith(s, long) {
      ContainsExtended(s[1..], short, long);
    } else {
      assert s[..|short|] == long[..|short|];
    }
  }

  /** A needle whose first character does not occur in the text is not
      found in it. */
  lemma {:induction false} ContainsFirstChar(s: Str, sub: Str)
    requires sub != [] && sub[0] !in s
    ensures !Contains(s, sub)
    decreases |s|
  {
    if |s| > 0 {
      assert s[0] != sub[0];
      ContainsFirstChar(s[1..], sub);
    }
  }

  /** A string that contains a needle is at least as long as the needle. */
  lemma {:induction false} ContainsLength(s: Str, sub: Str)
    requires Contains(s, sub)
    ensures |sub| <= |s|
  {
    if !StartsWith(s, sub) {
      ContainsLength(s[1..], sub);
    }
  }

  /** The characters Python's `str.strip()` removes (the ASCII ones). */
  predicate IsSpace(c: char)
  {
    c == ' ' || c == '\t' || c == '\n' || c == '\r' || c == '\U{B}' || c == '\U{C}'
    || c == '\U{1C}' || c == '\U{1D}' || c == '\U{1E}' || c == '\U{1F}'
  }

  function TrimStart(s: Str): (r: Str)
    ensures |r| <= |s| && r == s[|s| - |r|..]
    ensures r == [] || !IsSpace(r[0])
    ensures forall k :: 0 <= k < |s| - |r| ==> IsSpace(s[k])
  {
    if |s| > 0 && IsSpace(s[0]) then TrimStart(s[1..]) else s
  }

  function TrimEnd(s: Str): (r: Str)
    ensures |r| <= |s| && r == s[..|r|]
    ensures r == [] || !IsSpace(r[|r| - 1])
    ensures forall k :: |r| <= k < |s| ==> IsSpace(s[k])
  {
    if |s| > 0 && IsSpace(s[|s| - 1]) then TrimEnd(s[..|s| - 1]) else s
  }

  /** Python `str.strip()`: the longest slice of `s` with no surrounding
      whitespace, obtained by dropping whitespace only. */
  function Strip(s: Str): (r: Str)
    ensures |r| <= |s|
    ensures r == [] || (!IsSpace(r[0]) && !IsSpace(r[|r| - 1]))
  {
    TrimEnd(TrimStart(s))
  }

  lemma {:induction false} TrimEndIdempotent(s: Str)
    requires s == [] || !IsSpace(s[|s| - 1])
    ensures TrimEnd(s) == s
  {
  }

  lemma {:induction false} TrimStartIdempotent(s: Str)
    requires s == [] || !IsSpace(s[0])
    ensures TrimStart(s) == s
  {
  }

  /** Stripping twice is the same as stripping once. */
  lemma StripIdempotent(s: Str)
    ensures Strip(Strip(s)) == Strip(s)
  {
    var r := Strip(s);
    TrimStartIdempotent(r);
    TrimEndIdempotent(r);
  }

  /** Python `s.replace(pattern, replacement)`: every non-overlapping occurrence of
      `pattern`, scanned from the left, is replaced by `replacement`. */
  function ReplaceAll(s: Str, pattern: Str, replacement: Str): (r: Str)
    requires |pattern| > 0
    decreases |s|
  {
    if |s| < |pattern| then s
    else if s[..|pattern|] == pattern then replacement + ReplaceAll(s[|pattern|..], pattern, replacement)
    else [s[0]] + ReplaceAll(s[1..], pattern, replacement)
  }

  /** Replacing a pattern that does not occur changes nothing. */
  lemma {:induction false} ReplaceAllAbsent(s: Str, pattern: Str, replacement: Str)
    requires |pattern| > 0
    requires !Contains(s, pattern)
    ensures ReplaceAll(s, pattern, replacement) == s
  {
    if |s| >= |pattern| {
      assert s[..|pattern|] != pattern;
      ReplaceAllAbsent(s[1..], pattern, replacement);
    }
  }

  /** Python `s.replace(a, b)` for single characters. */
  function ReplaceChar(s: Str, a: char, b: char): (r: Str)
    ensures |r| == |s|
    ensures forall i :: 0 <= i < |s| ==> r[i] == (if s[i] == a then b else s[i])
  {
    if s == [] then [] else [if s[0] == a then b else s[0]] + ReplaceChar(s[1..], a, b)
  }

  /** Replacing a character that does not occur changes nothing. */
  lemma ReplaceCharAbsent(s: Str, a: char, b: char)
    requires a !in s
    ensures ReplaceChar(s, a, b) == s
  {
  }

  /** Python `s[:n]` for a non-negative `n`. */
  function Take<T>(s: seq<T>, n: nat): (r: seq<T>)
    ensures |r| == if n < |s| then n else |s|
    ensures r == s[..|r|]
  {
    if n < |s| then s[..n] else s
  }

  /** The text before the first occurrence of `sep`
      (Python `s.split(sep)[0]`). */
  function BeforeFirst(s: Str, sep: char): (r: Str)
    ensures StartsWith(s, r)
    ensures sep !in r
    ensures |r| < |s| ==> s[|r|] == sep
  {
    if s == [] || s[0] == sep then [] else [s[0]] + BeforeFirst(s[1..], sep)
  }

  /** Python `str.title()`: a letter is upper-cased when the character before
      it is not a letter, lower-cased otherwise. */
  function TitleFrom(s: Str, afterLetter: bool): (r: Str)
    ensures |r| == |s|
  {
    if s == [] then []
    else [if afterLetter then LowerChar(s[0]) else UpperChar(s[0])]
         + TitleFrom(s[1..], IsLetter(s[0]))
  }

  function Title(s: Str): (r: Str)
    ensures |r| == |s|
  {
    TitleFrom(s, false)
  }

  function DigitChar(d: nat): char
    requires d < 10
  {
    ('0' as int + d) as char
  }

  /** Python `str(n)` for a non-negative integer. */
  function Decimal(n: nat): (r: Str)
    ensures |r| > 0
    ensures forall i :: 0 <= i < |r| ==> '0' <= r[i] <= '9'
  {
    if n < 10 then [DigitChar(n)] else Decimal(n / 10) + [DigitChar(n % 10)]
  }
}
