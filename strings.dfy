/** The Python `str` operations the token handling uses: `lower`, `startswith`, `strip`. */
module Strings {

  /** `str.isspace` for one character: the characters `str.strip()` removes by default. */
  predicate IsSpace(c: char)
  {
    || '\U{0009}' <= c <= '\U{000D}'
    || '\U{001C}' <= c <= '\U{0020}'
    || c == '\U{0085}' || c == '\U{00A0}' || c == '\U{1680}'
    || '\U{2000}' <= c <= '\U{200A}'
    || c == '\U{2028}' || c == '\U{2029}' || c == '\U{202F}' || c == '\U{205F}' || c == '\U{3000}'
  }

  predicate AllSpace(s: string)
  {
    forall i :: 0 <= i < |s| ==> IsSpace(s[i])
  }

  /** ASCII case folding of one character. */
  function LowerChar(c: char): (d: char)
    ensures 'A' <= c <= 'Z' ==> d as int == c as int + 32
    ensures !('A' <= c <= 'Z') ==> d == c
  {
    if 'A' <= c <= 'Z' then (c as int + 32) as char else c
  }

  /** The characters that lower-case to a given lower-case letter or to a space: the
      character itself and, for a letter, its upper-case form. */
  lemma LowerCharIs(c: char, l: char)
    requires 'a' <= l <= 'z' || l == ' '
    ensures LowerChar(c) == l <==> c == l || ('a' <= l <= 'z' && c as int == l as int - 32)
  {
  }

  /** `s.lower()`, character by character. */
  function Lower(s: string): (r: string)
    ensures |r| == |s| && forall i :: 0 <= i < |s| ==> r[i] == LowerChar(s[i])
  {
    seq(|s|, i requires 0 <= i < |s| => LowerChar(s[i]))
  }

  /** `s.startswith(prefix)`. */
  predicate StartsWith(s: string, prefix: string)
  {
    |prefix| <= |s| && s[..|prefix|] == prefix
  }

  /** `s.lstrip()`: what is left after the leading whitespace. */
  function StripLeading(s: string): (r: string)
    ensures |r| <= |s| && r == s[|s| - |r|..]
    ensures AllSpace(s[..|s| - |r|])
    ensures r == [] || !IsSpace(r[0])
  {
    if s != [] && IsSpace(s[0]) then
      var r := StripLeading(s[1..]);
      assert s[1..][..|s| - 1 - |r|] == s[1..|s| - |r|];
      r
    else s
  }

  /** `s.rstrip()`: what is left before the trailing whitespace. */
  function StripTrailing(s: string): (r: string)
    ensures |r| <= |s| && r == s[..|r|]
    ensures AllSpace(s[|r|..])
    ensures r == [] || !IsSpace(r[|r| - 1])
  {
    if s != [] && IsSpace(s[|s| - 1]) then
      var r := StripTrailing(s[..|s| - 1]);
      assert s[..|s| - 1][|r|..] + [s[|s| - 1]] == s[|r|..];
      r
    else s
  }

  /** `s[i..i + |r|]` is `r`, with only whitespace before and after it in `s`. */
  predicate SpaceFramed(s: string, r: string, i: int)
  {
    0 <= i <= |s| - |r| && s[i..i + |r|] == r && AllSpace(s[..i]) && AllSpace(s[i + |r|..])
  }

  /** `s.strip()`: `s` without its leading and trailing whitespace. The result is the one
      slice of `s` that begins and ends with a non-space and has only spaces around it. */
  function Strip(s: string): (r: string)
    ensures r == [] || (!IsSpace(r[0]) && !IsSpace(r[|r| - 1]))
    ensures exists i :: SpaceFramed(s, r, i)
  {
    var lead := StripLeading(s);
    var r := StripTrailing(lead);
    StripFramed(s, lead, r);
    r
  }

  /** Dropping only spaces from the front of `s` (giving `lead`) and then only spaces from
      the back of `lead` (giving `r`) leaves `r` framed by spaces inside `s`. */
  lemma StripFramed(s: string, lead: string, r: string)
    requires |lead| <= |s| && lead == s[|s| - |lead|..] && AllSpace(s[..|s| - |lead|])
    requires lead == [] || !IsSpace(lead[0])
    requires |r| <= |lead| && r == lead[..|r|] && AllSpace(lead[|r|..])
    requires r == [] || !IsSpace(r[|r| - 1])
    ensures SpaceFramed(s, r, |s| - |lead|)
    ensures r == [] || (!IsSpace(r[0]) && !IsSpace(r[|r| - 1]))
  {
    var i := |s| - |lead|;
    assert s[i..] == lead;
    assert s[i..i + |r|] == r;
    assert s[i + |r|..] == lead[|r|..];
    if r != [] {
      assert r[0] == lead[0];
    }
  }

  /** Stripping twice is stripping once. */
  lemma StripIdempotent(s: string)
    ensures Strip(Strip(s)) == Strip(s)
  {
    var r := Strip(s);
    if r != [] {
      assert StripLeading(r) == r;
      assert StripTrailing(r) == r;
    }
  }

  /** What `SpaceFramed` says, position by position. */
  lemma FramedAt(s: string, r: string, i: int)
    requires SpaceFramed(s, r, i)
    ensures forall k :: 0 <= k < i ==> IsSpace(s[k])
    ensures forall k :: i + |r| <= k < |s| ==> IsSpace(s[k])
    ensures forall k :: 0 <= k < |r| ==> s[i + k] == r[k]
  {
    forall k | 0 <= k < i ensures IsSpace(s[k]) {
      assert s[k] == s[..i][k];
    }
    forall k | i + |r| <= k < |s| ensures IsSpace(s[k]) {
      assert s[k] == s[i + |r|..][k - i - |r|];
    }
  }

  /** Two slices of `s` framed by spaces, each empty or bounded by non-spaces, are the same. */
  lemma FramedUnique(s: string, t: string, i: int, r: string, j: int)
    requires SpaceFramed(s, t, i) && (t == [] || (!IsSpace(t[0]) && !IsSpace(t[|t| - 1])))
    requires SpaceFramed(s, r, j) && (r == [] || (!IsSpace(r[0]) && !IsSpace(r[|r| - 1])))
    ensures t == r
  {
    FramedAt(s, t, i);
    FramedAt(s, r, j);
    assert t != [] ==> s[i + 0] == t[0] && s[i + (|t| - 1)] == t[|t| - 1];
    assert r != [] ==> s[j + 0] == r[0] && s[j + (|r| - 1)] == r[|r| - 1];
    assert t != [] && r != [] ==> i == j && |t| == |r|;
  }

  /** `Strip` is the only slice that is framed by spaces and neither begins nor ends with one. */
  lemma StripUnique(s: string, t: string, i: int)
    requires SpaceFramed(s, t, i)
    requires t == [] || (!IsSpace(t[0]) && !IsSpace(t[|t| - 1]))
    ensures t == Strip(s)
  {
    var r := Strip(s);
    var j :| SpaceFramed(s, r, j);
    FramedUnique(s, t, i, r, j);
  }

  /** A slice bounded by non-spaces, padded on both sides with whitespace, strips to itself. */
  lemma StripPadded(lead: string, token: string, trail: string)
    requires AllSpace(lead) && AllSpace(trail)
    requires token == [] || (!IsSpace(token[0]) && !IsSpace(token[|token| - 1]))
    ensures Strip(lead + token + trail) == token
  {
    var k := lead + token + trail;
    assert k[..|lead|] == lead;
    assert k[|lead|..|lead| + |token|] == token;
    assert k[|lead| + |token|..] == trail;
    StripUnique(k, token, |lead|);
  }
}
