/** The few Python `str` operations the indexing core relies on, with CPython's
    semantics for the characters that matter. */
module PyText {

  /** `str.isspace()`: the 29 code points CPython treats as whitespace. */
  predicate IsSpace(c: char)
  {
    || ('\U{9}' <= c <= '\U{D}')        // \t \n \v \f \r
    || ('\U{1C}' <= c <= '\U{1F}')      // file, group, record and unit separators
    || c == ' ' || c == '\U{85}' || c == '\U{A0}' || c == '\U{1680}'
    || ('\U{2000}' <= c <= '\U{200A}')
    || c == '\U{2028}' || c == '\U{2029}' || c == '\U{202F}' || c == '\U{205F}' || c == '\U{3000}'
  }

  /** One character of `str.lower()`. Besides A-Z, U+212A KELVIN SIGN is the only
      code point whose lower case is ASCII; every other code point either maps to
      itself or to non-ASCII text, so comparisons of `Lower(s)` with ASCII literals
      agree with CPython. */
  function LowerChar(c: char): char
  {
    if 'A' <= c <= 'Z' then (c as int + 32) as char
    else if c == '\U{212A}' then 'k'
    else c
  }

  function Lower(s: string): (r: string)
    ensures |r| == |s|
  {
    seq(|s|, i requires 0 <= i < |s| => LowerChar(s[i]))
  }

  predicate StartsWith(s: string, prefix: string)
  {
    |prefix| <= |s| && s[..|prefix|] == prefix
  }

  predicate EndsWith(s: string, suffix: string)
  {
    |suffix| <= |s| && s[|s| - |suffix|..] == suffix
  }

  /** `s.replace(old, new)` for a one-character `old` and `new`. */
  function ReplaceChar(s: string, from: char, to: char): (r: string)
    ensures |r| == |s|
  {
    seq(|s|, i requires 0 <= i < |s| => if s[i] == from then to else s[i])
  }

  /** `s.lstrip()`: the longest suffix of `s` that does not start with whitespace. */
  function LStrip(s: string): (r: string)
    ensures |r| <= |s| && r == s[|s| - |r|..]
    ensures r == [] || !IsSpace(r[0])
    ensures forall i :: 0 <= i < |s| - |r| ==> IsSpace(s[i])
  {
    if s != [] && IsSpace(s[0]) then LStrip(s[1..]) else s
  }

  /** `s.rstrip()`: the longest prefix of `s` that does not end with whitespace. */
  function RStrip(s: string): (r: string)
    ensures |r| <= |s| && r == s[..|r|]
    ensures r == [] || !IsSpace(r[|r| - 1])
    ensures forall i :: |r| <= i < |s| ==> IsSpace(s[i])
  {
    if s != [] && IsSpace(s[|s| - 1]) then RStrip(s[..|s| - 1]) else s
  }

  /** `s.strip()`. */
  function Strip(s: string): string
  {
    RStrip(LStrip(s))
  }

  /** A stripped string neither starts nor ends with whitespace. */
  lemma StripEnds(s: string)
    ensures var r := Strip(s);
      r == [] || (!IsSpace(r[0]) && !IsSpace(r[|r| - 1]))
  {
    var l := LStrip(s);
    var r := RStrip(l);
    if r != [] {
      assert r[0] == l[0];
    }
  }

  /** `strip()` keeps one contiguous slice of its argument: it starts where the
      leading whitespace ends. */
  lemma StripShape(s: string)
    ensures var k := |s| - |LStrip(s)|; k + |Strip(s)| <= |s| && Strip(s) == s[k..k + |Strip(s)|]
  {
    var l := LStrip(s);
    var r := RStrip(l);
    var k := |s| - |l|;
    assert l == s[k..];
    assert r == l[..|r|];
  }

  /** Whitespace appended at the end never survives a strip. */
  lemma {:induction false} StripDropsTrailingSpace(s: string, w: char)
    requires IsSpace(w)
    ensures Strip(s + [w]) == Strip(s)
  {
    LStripSnoc(s, w);
    var l := LStrip(s);
    if l != [] {
      assert (l + [w])[..|l + [w]| - 1] == l;
    }
  }

  lemma {:induction false} LStripSnoc(s: string, w: char)
    requires IsSpace(w)
    ensures LStrip(s + [w]) == if LStrip(s) == [] then [] else LStrip(s) + [w]
  {
    if s == [] {
      assert LStrip([w]) == LStrip([]);
    } else if IsSpace(s[0]) {
      assert (s + [w])[1..] == s[1..] + [w];
      LStripSnoc(s[1..], w);
    }
  }

  /** A stripped string is already stripped. */
  lemma StripIdempotent(s: string)
    ensures Strip(Strip(s)) == Strip(s)
  {
    var l := LStrip(s);
    var r := RStrip(l);
    if r != [] {
      assert r[0] == l[0];
    }
  }

  /** After replacing every `from`, none is left. */
  lemma ReplaceCharRemoves(s: string, from: char, to: char)
    requires from != to
    ensures from !in ReplaceChar(s, from, to)
  {
  }

  /** Replacing a character that does not occur changes nothing. */
  lemma ReplaceCharAbsent(s: string, from: char, to: char)
    requires from !in s
    ensures ReplaceChar(s, from, to) == s
  {
  }
}
