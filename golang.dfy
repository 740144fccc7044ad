/** Go's integer division, which the coordinate and scroll scaling relies on.
    Go truncates the quotient toward zero; Dafny's `/` on `int` is Euclidean. */
module GoInt {

  function Abs(n: int): nat {
    if n < 0 then -n else n
  }

  /** `a / d` as Go computes it for a positive divisor. The quotient's magnitude is
      the floor of |a| / d and its sign is that of `a`. */
  function TruncDiv(a: int, d: int): (q: int)
    requires d > 0
    ensures Abs(q) * d <= Abs(a) < Abs(q) * d + d
    ensures q == 0 || (q < 0 <==> a < 0)
  {
    if a >= 0 then DivBounds(a, d); a / d
    else DivBounds(-a, d); -((-a) / d)
  }

  lemma DivBounds(n: nat, d: int)
    requires d > 0
    ensures 0 <= n / d && (n / d) * d <= n < (n / d) * d + d
  {
    assert n == (n / d) * d + n % d;
  }
}

/** The parts of Go's `strings` and `unicode` packages that the key-name lookup and the
    URL scheme check use, over strings taken as sequences of runes. */
module GoStrings {

  /** `strings.HasPrefix`. */
  predicate HasPrefix(s: string, prefix: string) {
    |prefix| <= |s| && s[..|prefix|] == prefix
  }

  /** `unicode.IsSpace`: the Latin-1 spaces and the other runes with the
      Unicode White_Space property. */
  predicate IsSpace(c: char) {
    c == '\t' || c == '\n' || c == '\U{0B}' || c == '\U{0C}' || c == '\r' || c == ' '
    || c == '\U{85}' || c == '\U{A0}' || c == '\U{1680}'
    || ('\U{2000}' <= c <= '\U{200A}')
    || c == '\U{2028}' || c == '\U{2029}' || c == '\U{202F}' || c == '\U{205F}' || c == '\U{3000}'
  }

  /** The number of space runes that begin `s`. */
  function LeadingSpaces(s: string): (k: nat)
    ensures k <= |s|
    ensures forall i :: 0 <= i < k ==> IsSpace(s[i])
    ensures k < |s| ==> !IsSpace(s[k])
  {
    if |s| > 0 && IsSpace(s[0]) then 1 + LeadingSpaces(s[1..]) else 0
  }

  /** The number of space runes that end `s`. */
  function TrailingSpaces(s: string): (k: nat)
    ensures k <= |s|
    ensures forall i :: |s| - k <= i < |s| ==> IsSpace(s[i])
    ensures k < |s| ==> !IsSpace(s[|s| - 1 - k])
  {
    if |s| > 0 && IsSpace(s[|s| - 1]) then 1 + TrailingSpaces(s[..|s| - 1]) else 0
  }

  /** `strings.TrimSpace`: `s` without its leading and trailing spaces. */
  function TrimSpace(s: string): (r: string)
    ensures |r| <= |s|
    ensures r == [] || (!IsSpace(r[0]) && !IsSpace(r[|r| - 1]))
    ensures (forall i :: 0 <= i < |s| ==> IsSpace(s[i])) ==> r == []
  {
    var rest := s[LeadingSpaces(s)..];
    rest[..|rest| - TrailingSpaces(rest)]
  }

  /** `unicode.ToLower` for the runes whose lower case is ASCII: 'A' to 'Z', the
      dotted capital I (U+0130) and the Kelvin sign (U+212A). Every other rune is
      kept; Go maps some of them to other non-ASCII runes, which no ASCII name can
      match, so lookups in an ASCII table come out the same. */
  function LowerRune(c: char): (l: char)
    ensures 'A' <= c <= 'Z' ==> l as int == c as int + 32
    ensures 'a' <= l <= 'z' ==> 'A' <= c <= 'Z' || 'a' <= c <= 'z' || c == '\U{130}' || c == '\U{212A}'
    ensures c == '\U{130}' ==> l == 'i'
    ensures c == '\U{212A}' ==> l == 'k'
    ensures !('A' <= c <= 'Z') && c != '\U{130}' && c != '\U{212A}' ==> l == c
  {
    if 'A' <= c <= 'Z' then (c as int + 32) as char
    else if c == '\U{130}' then 'i'
    else if c == '\U{212A}' then 'k'
    else c
  }

  /** `strings.ToLower`, rune by rune. */
  function ToLower(s: string): (r: string)
    ensures |r| == |s|
    ensures forall i :: 0 <= i < |s| ==> r[i] == LowerRune(s[i])
  {
    seq(|s|, i requires 0 <= i < |s| => LowerRune(s[i]))
  }

  /** Spaces in front of a string that does not start with one are exactly what
      `LeadingSpaces` counts. */
  lemma {:induction false} LeadingSpacesOfPadded(pre: string, s: string)
    requires forall i :: 0 <= i < |pre| ==> IsSpace(pre[i])
    requires s != [] && !IsSpace(s[0])
    ensures LeadingSpaces(pre + s) == |pre|
    decreases |pre|
  {
    if pre != [] {
      assert (pre + s)[1..] == pre[1..] + s;
      LeadingSpacesOfPadded(pre[1..], s);
    } else {
      assert pre + s == s;
    }
  }

  /** Spaces after a string that does not end with one are exactly what
      `TrailingSpaces` counts. */
  lemma {:induction false} TrailingSpacesOfPadded(s: string, post: string)
    requires forall i :: 0 <= i < |post| ==> IsSpace(post[i])
    requires s != [] && !IsSpace(s[|s| - 1])
    ensures TrailingSpaces(s + post) == |post|
    decreases |post|
  {
    if post != [] {
      assert (s + post)[..|s + post| - 1] == s + post[..|post| - 1];
      TrailingSpacesOfPadded(s, post[..|post| - 1]);
    } else {
      assert s + post == s;
    }
  }

  /** `TrimSpace` removes exactly the spaces around a string that neither starts nor
      ends with a space. */
  lemma TrimSpaceOfPadded(pre: string, s: string, post: string)
    requires forall i :: 0 <= i < |pre| ==> IsSpace(pre[i])
    requires forall i :: 0 <= i < |post| ==> IsSpace(post[i])
    requires s != [] && !IsSpace(s[0]) && !IsSpace(s[|s| - 1])
    ensures TrimSpace(pre + s + post) == s
  {
    var t := pre + s + post;
    assert t == pre + (s + post);
    LeadingSpacesOfPadded(pre, s + post);
    assert t[|pre|..] == s + post;
    TrailingSpacesOfPadded(s, post);
    assert (s + post)[..|s|] == s;
  }
}
