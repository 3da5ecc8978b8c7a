/** The two JavaScript string built-ins the score resolution relies on:
    `toLowerCase` (here on ASCII letters only) and `trim`, which strips the
    ECMAScript WhiteSpace and LineTerminator characters from both ends. */
module JsString {

  /** ECMAScript WhiteSpace (tab, vertical tab, form feed, space, no-break
      space, the byte order mark and the other Zs space separators) and
      LineTerminator (line feed, carriage return, line and paragraph
      separators). */
  predicate IsSpace(c: char)
  {
    c == '\t' || c == '\n' || c == '\U{B}' || c == '\U{C}' || c == '\r' || c == ' '
    || c == '\U{A0}' || c == '\U{1680}' || ('\U{2000}' <= c <= '\U{200A}')
    || c == '\U{2028}' || c == '\U{2029}' || c == '\U{202F}' || c == '\U{205F}'
    || c == '\U{3000}' || c == '\U{FEFF}'
  }

  predicate IsUpper(c: char)
  {
    'A' <= c <= 'Z'
  }

  function LowerChar(c: char): (r: char)
    ensures !IsUpper(r)
    ensures IsSpace(r) <==> IsSpace(c)
  {
    if IsUpper(c) then (c as int + 32) as char else c
  }

  function Lower(s: string): (r: string)
    ensures |r| == |s|
    ensures forall i :: 0 <= i < |s| ==> r[i] == LowerChar(s[i])
  {
    seq(|s|, i requires 0 <= i < |s| => LowerChar(s[i]))
  }

  /** Drops the leading white space: the result is the suffix of `s` that
      starts at its first non-space character. */
  function TrimStart(s: string): (r: string)
    ensures |r| <= |s| && r == s[|s| - |r|..]
    ensures forall i :: 0 <= i < |s| - |r| ==> IsSpace(s[i])
    ensures r != [] ==> !IsSpace(r[0])
  {
    if s != [] && IsSpace(s[0]) then TrimStart(s[1..]) else s
  }

  /** Drops the trailing white space: the result is the prefix of `s` that
      ends at its last non-space character. */
  function TrimEnd(s: string): (r: string)
    ensures |r| <= |s| && r == s[..|r|]
    ensures forall i :: |r| <= i < |s| ==> IsSpace(s[i])
    ensures r != [] ==> !IsSpace(r[|r| - 1])
  {
    if s != [] && IsSpace(s[|s| - 1]) then TrimEnd(s[..|s| - 1]) else s
  }

  /** Nothing but white space. */
  predicate AllSpace(s: string)
  {
    forall i :: 0 <= i < |s| ==> IsSpace(s[i])
  }

  /** `s` is `m` with the run of white space `p` before it and `q` after. */
  predicate Padded(s: string, p: string, m: string, q: string)
  {
    AllSpace(p) && AllSpace(q) && s == p + m + q
  }

  /** Drops white space at both ends: `s` is the result with a run of white
      space before and after it, and the result neither starts nor ends
      with white space. */
  function Trim(s: string): (r: string)
    ensures exists p, q :: Padded(s, p, r, q)
    ensures r != [] ==> !IsSpace(r[0]) && !IsSpace(r[|r| - 1])
  {
    var t := TrimStart(s);
    TrimCut(s);
    assert TrimEnd(t) != [] ==> TrimEnd(t)[0] == t[0];
    TrimEnd(t)
  }

  /** `TrimStart` cuts a run of white space off the front. */
  lemma {:induction false} TrimStartCut(s: string)
    ensures AllSpace(s[..|s| - |TrimStart(s)|])
    ensures s == s[..|s| - |TrimStart(s)|] + TrimStart(s)
  {
  }

  /** `TrimEnd` cuts a run of white space off the back. */
  lemma {:induction false} TrimEndCut(t: string)
    ensures AllSpace(t[|TrimEnd(t)|..])
    ensures t == TrimEnd(t) + t[|TrimEnd(t)|..]
  {
    var r := TrimEnd(t);
    forall i | 0 <= i < |t| - |r|
      ensures IsSpace(t[|r|..][i])
    {
      assert t[|r|..][i] == t[|r| + i];
    }
  }

  /** `Trim` cuts after the leading white space that `TrimStart` drops and
      before the trailing white space that `TrimEnd` drops. */
  lemma {:induction false} TrimCut(s: string)
    ensures exists p, q :: Padded(s, p, TrimEnd(TrimStart(s)), q)
  {
    var t := TrimStart(s);
    var r := TrimEnd(t);
    var p, q := s[..|s| - |t|], t[|r|..];
    assert Padded(s, p, r, q) by {
      TrimStartCut(s);
      TrimEndCut(t);
      AppendAssociative(p, r, q);
    }
  }

  lemma AppendAssociative(a: string, b: string, c: string)
    ensures a + b + c == a + (b + c)
  {
  }

  lemma {:induction false} TrimStartPadded(p: string, m: string)
    requires AllSpace(p)
    requires m == [] || !IsSpace(m[0])
    ensures TrimStart(p + m) == m
  {
    if p == [] {
      assert p + m == m;
    } else {
      assert (p + m)[1..] == p[1..] + m;
      TrimStartPadded(p[1..], m);
    }
  }

  lemma {:induction false} TrimEndPadded(m: string, q: string)
    requires AllSpace(q)
    requires m == [] || !IsSpace(m[|m| - 1])
    ensures TrimEnd(m + q) == m
  {
    if q == [] {
      assert m + q == m;
    } else {
      assert (m + q)[..|m + q| - 1] == m + q[..|q| - 1];
      TrimEndPadded(m, q[..|q| - 1]);
    }
  }

  /** Padding a word that has no white space at its ends with any run of
      white space on either side trims back to the word. */
  lemma TrimPadded(p: string, m: string, q: string)
    requires AllSpace(p)
    requires AllSpace(q)
    requires m != [] && !IsSpace(m[0]) && !IsSpace(m[|m| - 1])
    ensures Trim(p + m + q) == m
  {
    assert p + m + q == p + (m + q);
    TrimStartPadded(p, m + q);
    TrimEndPadded(m, q);
  }

  lemma {:induction false} TrimStartLowerCommute(s: string)
    ensures TrimStart(Lower(s)) == Lower(TrimStart(s))
  {
    if s != [] && IsSpace(s[0]) {
      assert Lower(s)[1..] == Lower(s[1..]);
      TrimStartLowerCommute(s[1..]);
    }
  }

  lemma {:induction false} TrimEndLowerCommute(s: string)
    ensures TrimEnd(Lower(s)) == Lower(TrimEnd(s))
  {
    if s != [] && IsSpace(s[|s| - 1]) {
      assert Lower(s)[..|s| - 1] == Lower(s[..|s| - 1]);
      TrimEndLowerCommute(s[..|s| - 1]);
    }
  }

  /** Lower-casing before trimming, as the score resolution does, is the same
      as trimming first. */
  lemma TrimLowerCommute(s: string)
    ensures Trim(Lower(s)) == Lower(Trim(s))
  {
    TrimStartLowerCommute(s);
    TrimEndLowerCommute(TrimStart(s));
  }

  /** Trimming a lower-cased string leaves no capital letter. */
  lemma {:induction false} TrimLowerHasNoUpper(s: string)
    ensures forall i :: 0 <= i < |Trim(Lower(s))| ==> !IsUpper(Trim(Lower(s))[i])
  {
    var l := Lower(s);
    var r := Trim(l);
    var p, q :| Padded(l, p, r, q);
    forall i | 0 <= i < |r|
      ensures !IsUpper(r[i])
    {
      assert r[i] == l[|p| + i];
    }
  }

  lemma LowerIdempotent(s: string)
    ensures Lower(Lower(s)) == Lower(s)
  {
  }

  lemma TrimIdempotent(s: string)
    ensures Trim(Trim(s)) == Trim(s)
  {
    var r := Trim(s);
    assert TrimStart(r) == r;
  }
}
