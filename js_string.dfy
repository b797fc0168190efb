/** The parts of ECMAScript string handling that the core relies on:
    `String.prototype.trim`, and the regular-expression classes `\s` and `\w`. */
module JsString {

  /** ECMAScript WhiteSpace and LineTerminator code points: the set that both
      `trim` removes and `\s` matches. */
  predicate IsWhitespace(c: char)
  {
    || c == '\t' || c == '\n' || c == '\U{B}' || c == '\U{C}' || c == '\r' || c == ' '
    || c == '\U{A0}' || c == '\U{1680}' || ('\U{2000}' <= c <= '\U{200A}')
    || c == '\U{2028}' || c == '\U{2029}' || c == '\U{202F}' || c == '\U{205F}'
    || c == '\U{3000}' || c == '\U{FEFF}'
  }

  /** The regular-expression class `\w`: `[A-Za-z0-9_]`. */
  predicate IsWordChar(c: char)
  {
    ('a' <= c <= 'z') || ('A' <= c <= 'Z') || ('0' <= c <= '9') || c == '_'
  }

  lemma WhitespaceIsNotWord(c: char)
    ensures IsWhitespace(c) ==> !IsWordChar(c)
  {
  }

  predicate All(p: char -> bool, s: string)
  {
    forall i :: 0 <= i < |s| ==> p(s[i])
  }

  /** A string made of white space only: the strings whose `trim()` is empty
      (lemma TrimEmptyIffBlank). */
  predicate IsBlank(s: string)
  {
    forall i :: 0 <= i < |s| ==> IsWhitespace(s[i])
  }

  /** Removes the longest prefix of characters satisfying `p` (a greedy `p*` at the start). */
  function DropWhile(p: char -> bool, s: string): (r: string)
    ensures |r| <= |s| && r == s[|s| - |r|..]
    ensures All(p, s[..|s| - |r|])
    ensures r == [] || !p(r[0])
  {
    if s != [] && p(s[0]) then
      var r := DropWhile(p, s[1..]);
      assert s[1..][..|s[1..]| - |r|] == s[1..|s| - |r|];
      r
    else s
  }

  /** Removes the longest suffix of characters satisfying `p`. */
  function DropWhileEnd(p: char -> bool, s: string): (r: string)
    ensures |r| <= |s| && r == s[..|r|]
    ensures All(p, s[|r|..])
    ensures r == [] || !p(r[|r| - 1])
  {
    if s != [] && p(s[|s| - 1]) then
      var r := DropWhileEnd(p, s[..|s| - 1]);
      assert s[..|s| - 1][|r|..] == s[|r|..|s| - 1];
      r
    else s
  }

  lemma {:induction false} DropWhileAppend(p: char -> bool, pre: string, rest: string)
    requires All(p, pre)
    requires rest == [] || !p(rest[0])
    ensures DropWhile(p, pre + rest) == rest
  {
    if pre != [] {
      assert (pre + rest)[1..] == pre[1..] + rest;
      DropWhileAppend(p, pre[1..], rest);
    }
  }

  lemma {:induction false} DropWhileEndAppend(p: char -> bool, rest: string, post: string)
    requires All(p, post)
    requires rest == [] || !p(rest[|rest| - 1])
    ensures DropWhileEnd(p, rest + post) == rest
  {
    if post != [] {
      var s := rest + post;
      assert s[..|s| - 1] == rest + post[..|post| - 1];
      DropWhileEndAppend(p, rest, post[..|post| - 1]);
    }
  }

  function TrimStart(s: string): string { DropWhile(IsWhitespace, s) }

  function TrimEnd(s: string): string { DropWhileEnd(IsWhitespace, s) }

  /** `s.trim()`: `s` without its leading and trailing whitespace. */
  function Trim(s: string): (r: string)
    ensures r == [] || (!IsWhitespace(r[0]) && !IsWhitespace(r[|r| - 1]))
  {
    TrimEnd(TrimStart(s))
  }

  /** What `trim` returns is a contiguous part of `s`, and only whitespace was cut on either side. */
  lemma TrimIsSlice(s: string)
    ensures exists i, j ::
              && 0 <= i <= j <= |s| && Trim(s) == s[i..j]
              && All(IsWhitespace, s[..i]) && All(IsWhitespace, s[j..])
  {
    var t := TrimStart(s);
    var r := TrimEnd(t);
    var i := |s| - |t|;
    assert r == s[i..i + |r|];
    assert s[i + |r|..] == t[|r|..];
  }

  /** A text without leading or trailing whitespace is its own trim. */
  lemma TrimmedIsFixed(s: string)
    requires s == [] || (!IsWhitespace(s[0]) && !IsWhitespace(s[|s| - 1]))
    ensures Trim(s) == s
  {
    DropWhileAppend(IsWhitespace, [], s);
    DropWhileEndAppend(IsWhitespace, s, []);
    assert [] + s == s && s + [] == s;
  }

  lemma TrimIdempotent(s: string)
    ensures Trim(Trim(s)) == Trim(s)
  {
    TrimmedIsFixed(Trim(s));
  }

  /** Padding on either side with whitespace does not change what `trim` returns. */
  lemma TrimPadded(lead: string, core: string, trail: string)
    requires All(IsWhitespace, lead) && All(IsWhitespace, trail)
    requires core == [] || (!IsWhitespace(core[0]) && !IsWhitespace(core[|core| - 1]))
    ensures Trim(lead + core + trail) == core
  {
    if core == [] {
      assert lead + core + trail == lead + trail;
      assert All(IsWhitespace, lead + trail);
      DropWhileAppend(IsWhitespace, lead + trail, []);
      assert (lead + trail) + [] == lead + trail;
      assert TrimStart(lead + trail) == [];
    } else {
      assert lead + core + trail == lead + (core + trail);
      DropWhileAppend(IsWhitespace, lead, core + trail);
      DropWhileEndAppend(IsWhitespace, core, trail);
    }
  }

  /** `s.trim()` is empty exactly when `s` is whitespace only. */
  lemma TrimEmptyIffBlank(s: string)
    ensures Trim(s) == [] <==> IsBlank(s)
  {
    var t := TrimStart(s);
    if All(IsWhitespace, s) {
      DropWhileAppend(IsWhitespace, s, []);
      assert s + [] == s;
    } else if TrimEnd(t) == [] {
      var k := |s| - |t|;
      assert All(IsWhitespace, s[..k]) && All(IsWhitespace, t) && t == s[k..];
      forall i | 0 <= i < |s| ensures IsWhitespace(s[i]) {
        if i < k { assert s[..k][i] == s[i]; } else { assert t[i - k] == s[i]; }
      }
    }
  }
}
