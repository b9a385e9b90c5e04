/** The folder-name sanitiser: every character Windows forbids in a file
    name becomes '_', every run of whitespace becomes one space, and the
    result is trimmed. */
module Sanitize {

  /** The characters of the JavaScript class `\s`, which is also the set
      `String.prototype.trim` removes (WhiteSpace and LineTerminator). */
  const Whitespace: set<char> := {
    ' ', '\t', '\n', '\U{B}', '\U{C}', '\r', '\U{A0}', '\U{1680}',
    '\U{2000}', '\U{2001}', '\U{2002}', '\U{2003}', '\U{2004}', '\U{2005}',
    '\U{2006}', '\U{2007}', '\U{2008}', '\U{2009}', '\U{200A}',
    '\U{2028}', '\U{2029}', '\U{202F}', '\U{205F}', '\U{3000}', '\U{FEFF}'
  }

  predicate IsSpace(c: char) {
    c in Whitespace
  }

  /** The characters of the class `[<>:"/\\|?*]`. */
  predicate IsForbidden(c: char) {
    c == '<' || c == '>' || c == ':' || c == '"' || c == '/' || c == '\\'
    || c == '|' || c == '?' || c == '*'
  }

  predicate NoForbidden(s: string) {
    forall i :: 0 <= i < |s| ==> !IsForbidden(s[i])
  }

  /** Every whitespace character is a plain space and no two are adjacent. */
  predicate SpacesCollapsed(s: string) {
    && (forall i :: 0 <= i < |s| && IsSpace(s[i]) ==> s[i] == ' ')
    && (forall i :: 0 <= i < |s| - 1 ==> !(IsSpace(s[i]) && IsSpace(s[i + 1])))
  }

  predicate Trimmed(s: string) {
    s != [] ==> !IsSpace(s[0]) && !IsSpace(s[|s| - 1])
  }

  /** The characters of `s` that are not whitespace, in order. */
  function NonSpace(s: string): string {
    if s == [] then []
    else if IsSpace(s[0]) then NonSpace(s[1..])
    else [s[0]] + NonSpace(s[1..])
  }

  /** `replace(/[<>:"/\\|?*]/g, '_')`. */
  function ReplaceForbidden(s: string): (r: string)
    ensures |r| == |s|
    ensures forall i :: 0 <= i < |s| ==> r[i] == if IsForbidden(s[i]) then '_' else s[i]
  {
    seq(|s|, i requires 0 <= i < |s| => if IsForbidden(s[i]) then '_' else s[i])
  }

  /** The longest suffix of `s` that does not start with whitespace
      (`trimStart`). */
  function TrimStart(s: string): (r: string)
    ensures |r| <= |s| && r == s[|s| - |r|..]
    ensures forall i :: 0 <= i < |s| - |r| ==> IsSpace(s[i])
    ensures r != [] ==> !IsSpace(r[0])
  {
    if s != [] && IsSpace(s[0]) then TrimStart(s[1..]) else s
  }

  /** The longest prefix of `s` that does not end with whitespace
      (`trimEnd`). */
  function TrimEnd(s: string): (r: string)
    ensures |r| <= |s| && r == s[..|r|]
    ensures forall i :: |r| <= i < |s| ==> IsSpace(s[i])
    ensures r != [] ==> !IsSpace(r[|r| - 1])
  {
    if s != [] && IsSpace(s[|s| - 1]) then TrimEnd(s[..|s| - 1]) else s
  }

  /** `trim()`: the slice of `s` left once the whitespace at both ends is
      removed. */
  function Trim(s: string): (r: string)
    ensures Trimmed(r)
  {
    var t := TrimStart(s);
    var u := TrimEnd(t);
    assert u != [] ==> u[0] == t[0];
    u
  }

  predicate AllSpace(w: string) {
    forall i :: 0 <= i < |w| ==> IsSpace(w[i])
  }

  /** `trim()` removes whitespace at both ends and nothing else: `s` is the
      trimmed text between two runs of whitespace, and since the trimmed
      text neither starts nor ends with whitespace, it is the only such
      split. */
  lemma TrimIsSlice(s: string)
    ensures exists p, q :: s == p + Trim(s) + q && AllSpace(p) && AllSpace(q)
  {
    var t := TrimStart(s);
    var u := TrimEnd(t);
    var p, q := s[..|s| - |t|], t[|u|..];
    assert Trim(s) == u;
    assert AllSpace(p) && AllSpace(q);
    SplitAt(t, |u|);
    SplitAt(s, |s| - |t|);
    ConcatAssoc(p, u, q);
    assert s == p + Trim(s) + q;
  }

  lemma SplitAt(x: string, k: nat)
    requires k <= |x|
    ensures x == x[..k] + x[k..]
  {
  }

  /** `replace(/\s+/g, ' ')`: each maximal run of whitespace becomes a single
      space. */
  function CollapseSpaces(s: string): (r: string)
    ensures SpacesCollapsed(r)
    ensures r == [] <==> s == []
    ensures r != [] ==> (IsSpace(r[0]) <==> IsSpace(s[0]))
    ensures NoForbidden(s) ==> NoForbidden(r)
    decreases |s|
  {
    if s == [] then []
    else if IsSpace(s[0]) then [' '] + CollapseSpaces(TrimStart(s))
    else [s[0]] + CollapseSpaces(s[1..])
  }

  /** `trimStart` of a concatenation: whitespace is removed from `b` only when
      `a` is all whitespace. */
  lemma {:induction false} TrimStartAppend(a: string, b: string)
    ensures TrimStart(a + b) == if TrimStart(a) == [] then TrimStart(b) else TrimStart(a) + b
    decreases |a|
  {
    if a == [] {
      assert a + b == b;
    } else if IsSpace(a[0]) {
      assert (a + b)[0] == a[0] && (a + b)[1..] == a[1..] + b;
      TrimStartAppend(a[1..], b);
    } else {
      assert (a + b)[0] == a[0];
    }
  }

  /** Collapsing works piecewise: it maps a concatenation to the
      concatenation of the collapsed parts unless a whitespace run crosses
      the joint. */
  lemma {:induction false} CollapseAppend(a: string, b: string)
    requires a == [] || b == [] || !IsSpace(a[|a| - 1]) || !IsSpace(b[0])
    ensures CollapseSpaces(a + b) == CollapseSpaces(a) + CollapseSpaces(b)
    decreases |a|, 1
  {
    if a == [] {
      assert a + b == b;
    } else if b == [] {
      assert a + b == a;
    } else if IsSpace(a[0]) {
      CollapseAppendSpace(a, b);
    } else {
      CollapseAppendVisible(a, b);
    }
  }

  lemma {:induction false} CollapseAppendSpace(a: string, b: string)
    requires a != [] && b != [] && IsSpace(a[0]) && (!IsSpace(a[|a| - 1]) || !IsSpace(b[0]))
    ensures CollapseSpaces(a + b) == CollapseSpaces(a) + CollapseSpaces(b)
    decreases |a|, 0
  {
    var ab := a + b;
    assert ab[0] == a[0];
    var t := TrimStart(a);
    TrimStartAppend(a, b);
    if t == [] {
      assert IsSpace(a[|a| - 1]);
      assert TrimStart(ab) == b;
      assert CollapseSpaces(ab) == [' '] + CollapseSpaces(b);
      assert CollapseSpaces(a) == [' '] + CollapseSpaces([]);
      assert [' '] + CollapseSpaces([]) == [' '];
    } else {
      assert t[|t| - 1] == a[|a| - 1];
      CollapseAppend(t, b);
      var ct, cb := CollapseSpaces(t), CollapseSpaces(b);
      assert CollapseSpaces(a) == [' '] + ct;
      assert CollapseSpaces(ab) == [' '] + (ct + cb);
      ConcatAssoc([' '], ct, cb);
    }
  }

  lemma {:induction false} CollapseAppendVisible(a: string, b: string)
    requires a != [] && b != [] && !IsSpace(a[0]) && (!IsSpace(a[|a| - 1]) || !IsSpace(b[0]))
    ensures CollapseSpaces(a + b) == CollapseSpaces(a) + CollapseSpaces(b)
    decreases |a|, 0
  {
    var ab := a + b;
    var rest := a[1..];
    assert ab[0] == a[0] && ab[1..] == rest + b;
    assert rest != [] ==> rest[|rest| - 1] == a[|a| - 1];
    CollapseAppend(rest, b);
    var cr, cb := CollapseSpaces(rest), CollapseSpaces(b);
    assert CollapseSpaces(a) == [a[0]] + cr;
    assert CollapseSpaces(ab) == [a[0]] + (cr + cb);
    ConcatAssoc([a[0]], cr, cb);
  }

  lemma ConcatAssoc(x: string, y: string, z: string)
    ensures x + (y + z) == (x + y) + z
  {
  }

  /** A whole run of whitespace becomes exactly one space. */
  lemma CollapseRun(w: string)
    requires w != [] && AllSpace(w)
    ensures CollapseSpaces(w) == [' ']
  {
    var t := TrimStart(w);
    assert t == [];
  }

  /** A visible character is kept as it is. */
  lemma CollapseVisible(c: char)
    requires !IsSpace(c)
    ensures CollapseSpaces([c]) == [c]
  {
    assert [c][1..] == [];
  }

  /** `sanitizeFilename(name)`, Extensions/download-server.js:50-52. */
  function SanitizeFilename(name: string): (r: string)
    ensures NoForbidden(r) && '/' !in r && '\\' !in r
    ensures Trimmed(r)
    ensures SpacesCollapsed(r)
  {
    var collapsed := CollapseSpaces(ReplaceForbidden(name));
    TrimmedKeepsCollapsed(collapsed);
    Trim(collapsed)
  }

  /** A slice of a collapsed, clean string is collapsed and clean. */
  lemma SliceKeepsCollapsed(s: string, lo: nat, hi: nat)
    requires lo <= hi <= |s|
    requires SpacesCollapsed(s) && NoForbidden(s)
    ensures SpacesCollapsed(s[lo..hi]) && NoForbidden(s[lo..hi])
  {
    var t := s[lo..hi];
    assert forall i :: 0 <= i < |t| ==> t[i] == s[lo + i];
  }

  /** Trimming takes a contiguous slice, so the slice keeps the properties of
      the whole. */
  lemma TrimmedKeepsCollapsed(s: string)
    requires SpacesCollapsed(s) && NoForbidden(s)
    ensures SpacesCollapsed(Trim(s)) && NoForbidden(Trim(s)) && Trimmed(Trim(s))
  {
    var t := TrimStart(s);
    var u := TrimEnd(t);
    SliceKeepsCollapsed(s, |s| - |t|, |s|);
    SliceKeepsCollapsed(t, 0, |u|);
  }

  lemma ReplaceForbiddenFixes(s: string)
    requires NoForbidden(s)
    ensures ReplaceForbidden(s) == s
  {
  }

  lemma {:induction false} CollapseSpacesFixes(s: string)
    requires SpacesCollapsed(s)
    ensures CollapseSpaces(s) == s
    decreases |s|
  {
    if s != [] {
      assert SpacesCollapsed(s[1..]) by {
        assert forall i :: 0 <= i < |s[1..]| ==> s[1..][i] == s[i + 1];
      }
      CollapseSpacesFixes(s[1..]);
      if IsSpace(s[0]) {
        assert s[0] == ' ';
        assert TrimStart(s) == s[1..] by {
          assert TrimStart(s) == TrimStart(s[1..]);
          if s[1..] != [] {
            assert !IsSpace(s[1]);
          }
        }
      }
    }
  }

  lemma TrimFixes(s: string)
    requires Trimmed(s)
    ensures Trim(s) == s
  {
  }

  /** A name that is already clean (no forbidden character, single plain
      spaces, no whitespace at either end) is left exactly as it is. */
  lemma SanitizeFixesClean(name: string)
    requires NoForbidden(name) && SpacesCollapsed(name) && Trimmed(name)
    ensures SanitizeFilename(name) == name
  {
    ReplaceForbiddenFixes(name);
    CollapseSpacesFixes(name);
    TrimFixes(name);
  }

  /** Sanitising an already sanitised name changes nothing. */
  lemma SanitizeIdempotent(name: string)
    ensures SanitizeFilename(SanitizeFilename(name)) == SanitizeFilename(name)
  {
    SanitizeFixesClean(SanitizeFilename(name));
  }

  lemma {:induction false} NonSpaceAppend(a: string, b: string)
    ensures NonSpace(a + b) == NonSpace(a) + NonSpace(b)
    decreases |a|
  {
    if a != [] {
      assert (a + b)[0] == a[0];
      assert (a + b)[1..] == a[1..] + b;
      NonSpaceAppend(a[1..], b);
    } else {
      assert a + b == b;
    }
  }

  /** The text a trim removes holds no visible character. */
  lemma {:induction false} NonSpaceOfSpaces(s: string, lo: nat, hi: nat)
    requires lo <= hi <= |s|
    requires forall i :: lo <= i < hi ==> IsSpace(s[i])
    ensures NonSpace(s[lo..hi]) == []
    decreases hi - lo
  {
    if lo < hi {
      assert s[lo..hi][0] == s[lo];
      assert s[lo..hi][1..] == s[lo + 1..hi];
      NonSpaceOfSpaces(s, lo + 1, hi);
    }
  }

  lemma {:induction false} NonSpaceCollapse(s: string)
    ensures NonSpace(CollapseSpaces(s)) == NonSpace(s)
    decreases |s|
  {
    if s != [] {
      if IsSpace(s[0]) {
        var t := TrimStart(s);
        var k := |s| - |t|;
        NonSpaceCollapse(t);
        assert s == s[..k] + t;
        NonSpaceAppend(s[..k], t);
        NonSpaceOfSpaces(s, 0, k);
        NonSpaceAppend([' '], CollapseSpaces(t));
        assert NonSpace([' ']) == [];
      } else {
        NonSpaceCollapse(s[1..]);
        NonSpaceAppend([s[0]], CollapseSpaces(s[1..]));
        NonSpaceAppend([s[0]], s[1..]);
        assert [s[0]] + s[1..] == s;
      }
    }
  }

  lemma {:induction false} NonSpaceTrimStart(s: string)
    ensures NonSpace(TrimStart(s)) == NonSpace(s)
    decreases |s|
  {
    if s != [] && IsSpace(s[0]) {
      NonSpaceTrimStart(s[1..]);
    }
  }

  lemma NonSpaceTrimEnd(s: string)
    ensures NonSpace(TrimEnd(s)) == NonSpace(s)
  {
    var u := TrimEnd(s);
    assert s == u + s[|u|..];
    NonSpaceAppend(u, s[|u|..]);
    NonSpaceOfSpaces(s, |u|, |s|);
    assert s[|u|..|s|] == s[|u|..];
    assert NonSpace(u) + [] == NonSpace(u);
  }

  lemma NonSpaceTrim(s: string)
    ensures NonSpace(Trim(s)) == NonSpace(s)
  {
    NonSpaceTrimStart(s);
    NonSpaceTrimEnd(TrimStart(s));
  }

  /** Apart from whitespace layout, the sanitised name is the original name
      with each forbidden character replaced by '_'. */
  lemma SanitizeKeepsText(name: string)
    ensures NonSpace(SanitizeFilename(name)) == NonSpace(ReplaceForbidden(name))
  {
    NonSpaceCollapse(ReplaceForbidden(name));
    NonSpaceTrim(CollapseSpaces(ReplaceForbidden(name)));
  }
}
