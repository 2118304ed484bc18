/** `String.prototype.trim` of ECMA-262: remove the white space and line
    terminators at both ends of a string. The cutting is defined for any
    set of white-space characters `ws`, so that its properties do not depend
    on which code points the set holds; `Trim` uses the set of ECMA-262. */
module JsTrim {

  /** The code points `trim` strips: WhiteSpace (section 12.2 of ECMA-262:
      TAB, VT, FF, ZWNBSP and every space separator of Unicode category Zs)
      and LineTerminator (section 12.3: LF, CR, LS, PS). */
  predicate IsWhitespace(c: char)
  {
    || ('\t' <= c <= '\r')  // TAB, LF, VT, FF, CR
    || c == ' ' || c == '\U{00A0}' || c == '\U{1680}'
    || ('\U{2000}' <= c <= '\U{200A}')
    || c == '\U{2028}' || c == '\U{2029}'
    || c == '\U{202F}' || c == '\U{205F}' || c == '\U{3000}' || c == '\U{FEFF}'
  }

  predicate AllIn(s: string, ws: char -> bool)
  {
    forall i :: 0 <= i < |s| ==> ws(s[i])
  }

  /** `s` has no character of `ws` at either end. */
  predicate NoEdgeIn(s: string, ws: char -> bool)
  {
    s == [] || (!ws(s[0]) && !ws(s[|s| - 1]))
  }

  /** Drops the leading white space: the result is the suffix of `s` that
      follows a run of white space and does not itself start with any. */
  function TrimStart(s: string, ws: char -> bool): (r: string)
    ensures |r| <= |s| && r == s[|s| - |r|..]
    ensures AllIn(s[..|s| - |r|], ws)
    ensures r == [] || !ws(r[0])
  {
    if s != [] && ws(s[0]) then
      var r := TrimStart(s[1..], ws);
      assert s[1..][..|s| - 1 - |r|] == s[1..|s| - |r|];
      r
    else
      s
  }

  /** Drops the trailing white space: the result is the prefix of `s` that
      precedes a run of white space and does not itself end with any. */
  function TrimEnd(s: string, ws: char -> bool): (r: string)
    ensures |r| <= |s| && r == s[..|r|]
    ensures AllIn(s[|r|..], ws)
    ensures r == [] || !ws(r[|r| - 1])
  {
    if s != [] && ws(s[|s| - 1]) then
      var r := TrimEnd(s[..|s| - 1], ws);
      assert s[..|s| - 1][|r|..] == s[|r|..|s| - 1];
      r
    else
      s
  }

  /** `r` is what is left of `s` once the white space before position `i`
      and the white space after `r` are cut off: a contiguous middle slice
      of `s`, with only white space outside it and none at either of its
      ends. */
  predicate TrimmedAt(s: string, i: nat, r: string, ws: char -> bool)
  {
    && i + |r| <= |s|
    && r == s[i..i + |r|]
    && AllIn(s[..i], ws)
    && AllIn(s[i + |r|..], ws)
    && NoEdgeIn(r, ws)
  }

  /** Both ends cut: the result is the middle of `s` once the leading and
      the trailing white space are cut off, and has none at either end. */
  function TrimWith(s: string, ws: char -> bool): (r: string)
    ensures TrimmedAt(s, |s| - |TrimStart(s, ws)|, r, ws)
  {
    var t := TrimStart(s, ws);
    var r := TrimEnd(t, ws);
    TrimParts(s, t, r, ws);
    r
  }

  /** The pieces `TrimWith` glues together: `t` is what follows the leading
      white space, `r` what precedes the trailing white space of `t`. */
  lemma TrimParts(s: string, t: string, r: string, ws: char -> bool)
    requires |t| <= |s| && t == s[|s| - |t|..] && AllIn(s[..|s| - |t|], ws) && (t == [] || !ws(t[0]))
    requires |r| <= |t| && r == t[..|r|] && AllIn(t[|r|..], ws) && (r == [] || !ws(r[|r| - 1]))
    ensures TrimmedAt(s, |s| - |t|, r, ws)
  {
    var i := |s| - |t|;
    assert s[i + |r|..] == t[|r|..];
    assert r != [] ==> r[0] == t[0];
  }

  /** The leading white space is the longest white-space prefix. */
  lemma {:induction false} TrimStartAt(s: string, n: nat, ws: char -> bool)
    requires n <= |s| && AllIn(s[..n], ws) && (n == |s| || !ws(s[n]))
    ensures TrimStart(s, ws) == s[n..]
  {
    if n > 0 {
      assert s[..n][0] == s[0];
      assert s[1..][..n - 1] == s[1..n];
      assert s[1..][n - 1..] == s[n..];
      TrimStartAt(s[1..], n - 1, ws);
    }
  }

  /** The trailing white space is the longest white-space suffix. */
  lemma {:induction false} TrimEndAt(s: string, n: nat, ws: char -> bool)
    requires n <= |s| && AllIn(s[n..], ws) && (n == 0 || !ws(s[n - 1]))
    ensures TrimEnd(s, ws) == s[..n]
  {
    if n < |s| {
      var p := s[..|s| - 1];
      assert s[n..][|s| - 1 - n] == s[|s| - 1];
      assert p[n..] == s[n..|s| - 1];
      assert p[..n] == s[..n];
      TrimEndAt(p, n, ws);
    }
  }

  /** A string without white space at its ends is its own trim. */
  lemma TrimWithNoEdge(s: string, ws: char -> bool)
    requires NoEdgeIn(s, ws)
    ensures TrimWith(s, ws) == s
  {
    assert TrimStart(s, ws) == s;
    assert TrimEnd(s, ws) == s;
  }

  /** A string trims to the empty string exactly when it is all white space. */
  lemma TrimWithEmpty(s: string, ws: char -> bool)
    ensures TrimWith(s, ws) == [] <==> AllIn(s, ws)
  {
    if AllIn(s, ws) {
      TrimStartAt(s, |s|, ws);
    }
  }

  /** `s.trim()`. */
  function Trim(s: string): (r: string)
    ensures |r| <= |s| && NoEdgeWhitespace(r)
  {
    TrimWith(s, IsWhitespace)
  }

  /** `s` has no white space or line terminator at either end. */
  predicate NoEdgeWhitespace(s: string)
  {
    NoEdgeIn(s, IsWhitespace)
  }

  /** A trimmed string has no white space at its ends, and trimming it again
      changes nothing. */
  lemma TrimIdempotent(s: string)
    ensures NoEdgeWhitespace(Trim(s))
    ensures Trim(Trim(s)) == Trim(s)
  {
    TrimWithNoEdge(Trim(s), IsWhitespace);
  }

  /** The ingredients of the save example keep their inner spaces and lose
      the ones around them. */
  lemma TrimExample()
    ensures Trim("  eggs, milk  ") == "eggs, milk"
  {
    TrimExampleStart();
    TrimExampleEnd();
  }

  lemma TrimExampleStart()
    ensures TrimStart("  eggs, milk  ", IsWhitespace) == "eggs, milk  "
  {
    var s := "  eggs, milk  ";
    assert !IsWhitespace('e');
    assert s[..2] == "  " && s[2] == 'e';
    TrimStartAt(s, 2, IsWhitespace);
    assert s[2..] == "eggs, milk  ";
  }

  lemma TrimExampleEnd()
    ensures TrimEnd("eggs, milk  ", IsWhitespace) == "eggs, milk"
  {
    var t := "eggs, milk  ";
    assert !IsWhitespace('k');
    assert t[10..] == "  " && t[9] == 'k';
    TrimEndAt(t, 10, IsWhitespace);
    assert t[..10] == "eggs, milk";
  }
}
