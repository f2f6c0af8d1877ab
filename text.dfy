/** The JavaScript string operations the storefront relies on: `trim`,
    `toLowerCase`, `startsWith`, `includes`, `split` and `join`, on strings
    as sequences of characters. */
module Text {

  /** The characters `String.prototype.trim` removes: ECMAScript white space
      and line terminators. */
  predicate IsSpace(c: char) {
    || c == ' ' || c == '\t' || c == '\n' || c == '\r'
    || c == '\U{000B}' || c == '\U{000C}' || c == '\U{00A0}' || c == '\U{1680}'
    || ('\U{2000}' <= c <= '\U{200A}')
    || c == '\U{2028}' || c == '\U{2029}' || c == '\U{202F}' || c == '\U{205F}'
    || c == '\U{3000}' || c == '\U{FEFF}'
  }

  predicate AllSpace(s: string) {
    forall i :: 0 <= i < |s| ==> IsSpace(s[i])
  }

  lemma SpaceIsSpace()
    ensures AllSpace(" ")
  {
  }

  /** No white space at either end. */
  predicate IsTrimmed(s: string) {
    s == [] || (!IsSpace(s[0]) && !IsSpace(s[|s| - 1]))
  }

  function TrimStart(s: string): (r: string)
    ensures |r| <= |s| && r == s[|s| - |r|..]
    ensures r == [] || !IsSpace(r[0])
    ensures forall i :: 0 <= i < |s| - |r| ==> IsSpace(s[i])
  {
    if s != [] && IsSpace(s[0]) then TrimStart(s[1..]) else s
  }

  function TrimEnd(s: string): (r: string)
    ensures |r| <= |s| && r == s[..|r|]
    ensures r == [] || !IsSpace(r[|r| - 1])
    ensures forall i :: |r| <= i < |s| ==> IsSpace(s[i])
  {
    if s != [] && IsSpace(s[|s| - 1]) then TrimEnd(s[..|s| - 1]) else s
  }

  /** `s.trim()`: the longest infix of `s` with no white space at its ends. */
  function Trim(s: string): (r: string)
    ensures IsTrimmed(r)
    ensures |r| <= |s|
    ensures r == [] <==> AllSpace(s)
  {
    var t := TrimStart(s);
    assert t != [] ==> t[0] == s[|s| - |t|];
    TrimEnd(t)
  }

  /** A prefix of white-space characters is white space. */
  lemma PrefixSpaces(s: string, i: nat)
    requires i <= |s|
    requires forall k :: 0 <= k < i ==> IsSpace(s[k])
    ensures AllSpace(s[..i])
  {
    forall k | 0 <= k < i
      ensures IsSpace(s[..i][k])
    {
      assert s[..i][k] == s[k];
    }
  }

  /** A suffix of white-space characters is white space. */
  lemma SuffixSpaces(s: string, j: nat)
    requires j <= |s|
    requires forall k :: j <= k < |s| ==> IsSpace(s[k])
    ensures AllSpace(s[j..])
  {
    forall k | 0 <= k < |s| - j
      ensures IsSpace(s[j..][k])
    {
      assert s[j..][k] == s[j + k];
    }
  }

  /** `s` splits as `s[..i] + r + s[j..]` with white space on both sides of
      `r`. */
  predicate IsSpaceCut(s: string, i: int, j: int, r: string) {
    && 0 <= i <= j <= |s|
    && s == s[..i] + r + s[j..]
    && AllSpace(s[..i])
    && AllSpace(s[j..])
  }

  /** The kept part of a cut is exactly the slice between the cut points. */
  lemma SpaceCutIsSlice(s: string, i: int, j: int, r: string)
    requires IsSpaceCut(s, i, j, r)
    ensures r == s[i..j]
  {
    var w := s[..i] + r;
    assert |r| == j - i;
    forall k | 0 <= k < |r|
      ensures r[k] == s[i..j][k]
    {
      assert s[i + k] == (w + s[j..])[i + k] == w[i + k] == r[k];
    }
  }

  /** Cutting a white-space prefix and then a white-space suffix keeps an
      infix of the original text. */
  lemma CutIsInfix(s: string, t: string, r: string)
    requires |t| <= |s| && t == s[|s| - |t|..]
    requires forall k :: 0 <= k < |s| - |t| ==> IsSpace(s[k])
    requires |r| <= |t| && r == t[..|r|]
    requires forall k :: |r| <= k < |t| ==> IsSpace(t[k])
    ensures IsSpaceCut(s, |s| - |t|, |s| - |t| + |r|, r)
  {
    var i := |s| - |t|;
    var j := i + |r|;
    assert r == s[i..j] by {
      assert s[i..][..|r|] == s[i..j];
    }
    assert s == s[..i] + s[i..j] + s[j..];
    PrefixSpaces(s, i);
    forall k | j <= k < |s|
      ensures IsSpace(s[k])
    {
      assert s[k] == t[k - i];
    }
    SuffixSpaces(s, j);
  }

  /** `trim` cuts a white-space prefix and a white-space suffix off `s` and
      keeps what lies between them unchanged. */
  lemma TrimIsInfix(s: string)
    ensures IsSpaceCut(s, |s| - |TrimStart(s)|, |s| - |TrimStart(s)| + |Trim(s)|, Trim(s))
  {
    var t := TrimStart(s);
    CutIsInfix(s, t, TrimEnd(t));
  }

  lemma TrimOfTrimmed(s: string)
    requires IsTrimmed(s)
    ensures Trim(s) == s
  {
  }

  lemma {:induction false} TrimStartLeadingSpaces(lead: string, s: string)
    requires AllSpace(lead)
    ensures TrimStart(lead + s) == TrimStart(s)
    decreases |lead|
  {
    if lead != [] {
      var ls := lead + s;
      assert ls[0] == lead[0];
      assert ls[1..] == lead[1..] + s;
      assert TrimStart(ls) == TrimStart(ls[1..]);
      TrimStartLeadingSpaces(lead[1..], s);
    } else {
      assert lead + s == s;
    }
  }

  /** White space in front of a string does not survive `trim`. */
  lemma TrimLeadingSpaces(lead: string, s: string)
    requires AllSpace(lead)
    ensures Trim(lead + s) == Trim(s)
  {
    TrimStartLeadingSpaces(lead, s);
  }

  /** Trimming adds no character. */
  lemma TrimKeepsOut(s: string, c: char)
    requires c !in s
    ensures c !in Trim(s)
  {
    var t := TrimStart(s);
    assert c !in t;
  }

  /** White space in front of a string does not survive `trim`. */
  lemma TrimLeadingSpace(c: char, s: string)
    requires IsSpace(c)
    ensures Trim([c] + s) == Trim(s)
  {
    assert ([c] + s)[1..] == s;
  }

  /** `toLowerCase` on the ASCII letters; every other character is kept. */
  function LowerChar(c: char): char {
    if 'A' <= c <= 'Z' then (c as int + 32) as char else c
  }

  function ToLower(s: string): (r: string)
    ensures |r| == |s|
    ensures forall i :: 0 <= i < |s| ==> r[i] == LowerChar(s[i])
  {
    seq(|s|, i requires 0 <= i < |s| => LowerChar(s[i]))
  }

  predicate StartsWith(s: string, prefix: string) {
    |prefix| <= |s| && s[..|prefix|] == prefix
  }

  /** `s.includes(part)`. */
  predicate Contains(s: string, part: string)
    decreases |s|
  {
    StartsWith(s, part) || (s != [] && Contains(s[1..], part))
  }

  lemma ContainsEmpty(s: string)
    ensures Contains(s, [])
  {
  }

  /** `s || fallback`: the empty string is falsy. */
  function OrElse(s: string, fallback: string): (r: string)
    ensures s != [] ==> r == s
    ensures s == [] ==> r == fallback
  {
    if s != [] then s else fallback
  }

  /** `s.split(sep)` for a one-character separator: the pieces between the
      separators, in order; a string without `sep` is one piece. */
  function Split(s: string, sep: char): (r: seq<string>)
    ensures |r| >= 1
    ensures forall i :: 0 <= i < |r| ==> sep !in r[i]
  {
    if s == [] then [[]]
    else
      var rest := Split(s[1..], sep);
      if s[0] == sep then [[]] + rest
      else [[s[0]] + rest[0]] + rest[1..]
  }

  /** `parts.join(sep)`. */
  function Join(parts: seq<string>, sep: string): string
    decreases |parts|
  {
    if parts == [] then []
    else if |parts| == 1 then parts[0]
    else parts[0] + sep + Join(parts[1..], sep)
  }

  lemma {:induction false} SplitWithoutSeparator(s: string, sep: char)
    requires sep !in s
    ensures Split(s, sep) == [s]
    decreases |s|
  {
    if s != [] {
      SplitWithoutSeparator(s[1..], sep);
      assert [s[0]] + s[1..] == s;
    }
  }

  /** Splitting at the first separator: the piece before it comes first. */
  lemma {:induction false} SplitAtFirstSeparator(a: string, sep: char, b: string)
    requires sep !in a
    ensures Split(a + [sep] + b, sep) == [a] + Split(b, sep)
    decreases |a|
  {
    var s := a + [sep] + b;
    if a == [] {
      assert s[1..] == b;
    } else {
      assert s[1..] == a[1..] + [sep] + b;
      SplitAtFirstSeparator(a[1..], sep, b);
      assert [a[0]] + a[1..] == a;
    }
  }

  predicate IsHexDigit(c: char) {
    ('0' <= c <= '9') || ('a' <= c <= 'f') || ('A' <= c <= 'F')
  }

  /** A digit as `toString('hex')` writes it: no upper-case letters. */
  predicate IsLowerHexDigit(c: char) {
    ('0' <= c <= '9') || ('a' <= c <= 'f')
  }

  /** `/^[0-9a-fA-F]{24}$/.test(s)`: the text of an ObjectId. */
  predicate IsObjectIdText(s: string) {
    |s| == 24 && forall i :: 0 <= i < |s| ==> IsHexDigit(s[i])
  }
}
