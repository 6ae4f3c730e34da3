/**
 * The two string operations the scoring rules rely on: the
 * `replace(/[^a-zA-Z0-9]/g, '')` filter applied to the retailer name and
 * `String.prototype.trim` applied to item descriptions.
 */
module Text {

  /** Characters matched by the character class `[a-zA-Z0-9]`. */
  predicate IsAsciiAlnum(c: char) {
    ('a' <= c <= 'z') || ('A' <= c <= 'Z') || ('0' <= c <= '9')
  }

  /**
   * Whitespace removed by `trim`: ECMAScript's WhiteSpace and LineTerminator
   * code points (tab through carriage return, space, no-break space, the
   * Unicode space separators, the line and paragraph separators and the byte
   * order mark).
   */
  predicate IsWhitespace(c: char) {
    if c <= ' ' then
      c == ' ' || '\t' <= c <= '\r'
    else
      '\U{A0}' <= c
      && (c == '\U{A0}' || c == '\U{1680}' || ('\U{2000}' <= c <= '\U{200A}')
          || c == '\U{2028}' || c == '\U{2029}' || c == '\U{202F}' || c == '\U{205F}'
          || c == '\U{3000}' || c == '\U{FEFF}')
  }

  /** The string with every character outside `[a-zA-Z0-9]` deleted, order kept. */
  function KeepAlnum(s: string): string {
    if s == [] then []
    else KeepAlnum(s[..|s| - 1]) + (if IsAsciiAlnum(s[|s| - 1]) then [s[|s| - 1]] else [])
  }

  /** The filter only shortens, and what it keeps is letters and digits. */
  lemma {:induction false} KeepAlnumShape(s: string)
    ensures |KeepAlnum(s)| <= |s|
    ensures forall k :: 0 <= k < |KeepAlnum(s)| ==> IsAsciiAlnum(KeepAlnum(s)[k])
  {
    if s != [] {
      KeepAlnumShape(s[..|s| - 1]);
    }
  }

  /** Every occurrence of a letter or digit is kept, and nothing else is. */
  lemma {:induction false} KeepAlnumOccurrences(s: string)
    ensures forall c :: IsAsciiAlnum(c) ==> multiset(KeepAlnum(s))[c] == multiset(s)[c]
    ensures forall c :: !IsAsciiAlnum(c) ==> multiset(KeepAlnum(s))[c] == 0
  {
    if s != [] {
      var init := s[..|s| - 1];
      KeepAlnumOccurrences(init);
      assert s == init + [s[|s| - 1]];
    }
  }

  /** Filtering a concatenation filters each part: the filter works character by character. */
  lemma {:induction false} KeepAlnumAppend(a: string, b: string)
    ensures KeepAlnum(a + b) == KeepAlnum(a) + KeepAlnum(b)
  {
    if b == [] {
      assert a + b == a;
    } else {
      var ab := a + b;
      assert ab[|ab| - 1] == b[|b| - 1];
      assert ab[..|ab| - 1] == a + b[..|b| - 1];
      KeepAlnumAppend(a, b[..|b| - 1]);
    }
  }

  /** A string made only of letters and digits is left as it is. */
  lemma {:induction false} KeepAlnumAllAlnum(s: string)
    requires forall k :: 0 <= k < |s| ==> IsAsciiAlnum(s[k])
    ensures KeepAlnum(s) == s
  {
    if s != [] {
      KeepAlnumAllAlnum(s[..|s| - 1]);
      assert s == s[..|s| - 1] + [s[|s| - 1]];
    }
  }

  /** A string with no letter or digit filters to the empty string. */
  lemma {:induction false} KeepAlnumNoAlnum(s: string)
    requires forall k :: 0 <= k < |s| ==> !IsAsciiAlnum(s[k])
    ensures KeepAlnum(s) == []
  {
    if s != [] {
      KeepAlnumNoAlnum(s[..|s| - 1]);
    }
  }

  /** Removes the leading whitespace. */
  function TrimStart(s: string): string {
    if s != [] && IsWhitespace(s[0]) then TrimStart(s[1..]) else s
  }

  /** Removes the trailing whitespace. */
  function TrimEnd(s: string): string {
    if s != [] && IsWhitespace(s[|s| - 1]) then TrimEnd(s[..|s| - 1]) else s
  }

  /** `s.trim()`: leading, then trailing whitespace removed. */
  function Trim(s: string): string {
    TrimEnd(TrimStart(s))
  }

  /** `TrimStart` drops a prefix made only of whitespace and stops at the first other character. */
  lemma {:induction false} TrimStartShape(s: string)
    ensures |TrimStart(s)| <= |s| && TrimStart(s) == s[|s| - |TrimStart(s)|..]
    ensures forall k :: 0 <= k < |s| - |TrimStart(s)| ==> IsWhitespace(s[k])
    ensures TrimStart(s) != [] ==> !IsWhitespace(TrimStart(s)[0])
  {
    if s != [] && IsWhitespace(s[0]) {
      TrimStartShape(s[1..]);
    }
  }

  /** `TrimEnd` drops a suffix made only of whitespace and stops at the last other character. */
  lemma {:induction false} TrimEndShape(s: string)
    ensures |TrimEnd(s)| <= |s| && TrimEnd(s) == s[..|TrimEnd(s)|]
    ensures forall k :: |TrimEnd(s)| <= k < |s| ==> IsWhitespace(s[k])
    ensures TrimEnd(s) != [] ==> !IsWhitespace(TrimEnd(s)[|TrimEnd(s)| - 1])
  {
    if s != [] && IsWhitespace(s[|s| - 1]) {
      TrimEndShape(s[..|s| - 1]);
    }
  }

  /**
   * `trim` keeps an infix of the string, removing only whitespace, and what
   * it keeps neither starts nor ends with whitespace.
   */
  lemma {:induction false} TrimShape(s: string)
    ensures |Trim(s)| <= |s|
    ensures Trim(s) != [] ==> !IsWhitespace(Trim(s)[0]) && !IsWhitespace(Trim(s)[|Trim(s)| - 1])
    ensures |TrimStart(s)| <= |s|
    ensures var start := |s| - |TrimStart(s)|;
      0 <= start && start + |Trim(s)| <= |s| && Trim(s) == s[start..start + |Trim(s)|]
      && (forall k :: 0 <= k < start ==> IsWhitespace(s[k]))
      && (forall k :: start + |Trim(s)| <= k < |s| ==> IsWhitespace(s[k]))
  {
    var t := TrimStart(s);
    TrimStartShape(s);
    TrimEndShape(t);
    var start := |s| - |t|;
    var r := TrimEnd(t);
    assert r == t[..|r|];
    forall k | start + |r| <= k < |s|
      ensures IsWhitespace(s[k])
    {
      assert s[k] == t[k - start];
    }
    if r != [] {
      assert r[0] == t[0];
    }
  }

  /** Leading whitespace before text that starts with a non-whitespace character is all the leading trim removes. */
  lemma {:induction false} TrimStartPadded(pre: string, rest: string)
    requires forall k :: 0 <= k < |pre| ==> IsWhitespace(pre[k])
    requires rest != [] ==> !IsWhitespace(rest[0])
    ensures TrimStart(pre + rest) == rest
  {
    if pre == [] {
      assert pre + rest == rest;
    } else {
      assert (pre + rest)[0] == pre[0];
      assert (pre + rest)[1..] == pre[1..] + rest;
      TrimStartPadded(pre[1..], rest);
    }
  }

  /** Trailing whitespace after text that ends with a non-whitespace character is all the trailing trim removes. */
  lemma {:induction false} TrimEndPadded(rest: string, post: string)
    requires forall k :: 0 <= k < |post| ==> IsWhitespace(post[k])
    requires rest != [] ==> !IsWhitespace(rest[|rest| - 1])
    ensures TrimEnd(rest + post) == rest
  {
    if post == [] {
      assert rest + post == rest;
    } else {
      var n := |rest + post|;
      assert (rest + post)[n - 1] == post[|post| - 1];
      assert (rest + post)[..n - 1] == rest + post[..|post| - 1];
      TrimEndPadded(rest, post[..|post| - 1]);
    }
  }

  /**
   * Whitespace around a core that neither starts nor ends with whitespace
   * is exactly what `trim` removes; an all-whitespace string trims to "".
   */
  lemma {:induction false} TrimPadded(pre: string, core: string, post: string)
    requires forall k :: 0 <= k < |pre| ==> IsWhitespace(pre[k])
    requires forall k :: 0 <= k < |post| ==> IsWhitespace(post[k])
    requires core != [] ==> !IsWhitespace(core[0]) && !IsWhitespace(core[|core| - 1])
    ensures Trim(pre + core + post) == core
  {
    assert pre + core + post == pre + (core + post);
    if core == [] {
      assert core + post == post;
      TrimStartAllWhitespace(pre + post);
      assert TrimStart(pre + core + post) == [];
    } else {
      assert (core + post)[0] == core[0];
      TrimStartPadded(pre, core + post);
      TrimEndPadded(core, post);
    }
  }

  /** A string of whitespace only is removed entirely by the leading trim. */
  lemma {:induction false} TrimStartAllWhitespace(s: string)
    requires forall k :: 0 <= k < |s| ==> IsWhitespace(s[k])
    ensures TrimStart(s) == []
  {
    if s != [] {
      TrimStartAllWhitespace(s[1..]);
    }
  }

  /** A string that neither starts nor ends with whitespace is its own trim. */
  lemma {:induction false} TrimUnpadded(s: string)
    requires s != [] ==> !IsWhitespace(s[0]) && !IsWhitespace(s[|s| - 1])
    ensures Trim(s) == s
  {
    assert TrimStart(s) == s;
    assert TrimEnd(s) == s;
  }

  /** Trimming twice is trimming once. */
  lemma {:induction false} TrimIdempotent(s: string)
    ensures Trim(Trim(s)) == Trim(s)
  {
    TrimShape(s);
    TrimUnpadded(Trim(s));
  }
}
