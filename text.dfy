/** The JavaScript string operations the code relies on: `trim`, `toLowerCase`,
    `includes`, `startsWith`, a global `replace` of a literal pattern, and the
    relational operator `<=` on strings. */
module Text {

  /** The characters `String.prototype.trim` removes: WhiteSpace and
      LineTerminator of section 12.2 and 12.3 of ECMA-262. */
  predicate IsSpace(c: char)
  {
    c == ' ' || c == '\t' || c == '\n' || c == '\r' || c == '\U{B}' || c == '\U{C}' ||
    c == '\U{A0}' || c == '\U{FEFF}' || c == '\U{1680}' || ('\U{2000}' <= c <= '\U{200A}') ||
    c == '\U{2028}' || c == '\U{2029}' || c == '\U{202F}' || c == '\U{205F}' || c == '\U{3000}'
  }

  function TrimStart(s: string): string
  {
    if s != [] && IsSpace(s[0]) then TrimStart(s[1..]) else s
  }

  function TrimEnd(s: string): string
  {
    if s != [] && IsSpace(s[|s| - 1]) then TrimEnd(s[..|s| - 1]) else s
  }

  function Trim(s: string): string
  {
    TrimEnd(TrimStart(s))
  }

  ghost predicate AllSpace(s: string)
  {
    forall i :: 0 <= i < |s| ==> IsSpace(s[i])
  }

  /** `toLowerCase` on the ASCII letters; other characters are kept. */
  function LowerChar(c: char): char
  {
    if 'A' <= c <= 'Z' then (c as int + 32) as char else c
  }

  function ToLower(s: string): (r: string)
    ensures |r| == |s|
    ensures forall i :: 0 <= i < |s| ==> r[i] == LowerChar(s[i])
  {
    if s == [] then [] else [LowerChar(s[0])] + ToLower(s[1..])
  }

  predicate StartsWith(s: string, p: string)
  {
    |p| <= |s| && s[..|p|] == p
  }

  /** `s.includes(p)`. */
  predicate Contains(s: string, p: string)
  {
    StartsWith(s, p) || (s != [] && Contains(s[1..], p))
  }

  ghost predicate OccursAt(s: string, p: string, i: int)
  {
    0 <= i && i + |p| <= |s| && s[i..i + |p|] == p
  }

  /** `s.replace(/p/g, '')` for a literal pattern `p`: a left-to-right scan
      that drops each non-overlapping occurrence. */
  function RemoveAll(s: string, p: string): string
    requires p != []
  {
    if |s| < |p| then s
    else if s[..|p|] == p then RemoveAll(s[|p|..], p)
    else [s[0]] + RemoveAll(s[1..], p)
  }

  /** JavaScript's `a <= b` on strings: lexicographic order of the characters. */
  predicate LexLe(a: string, b: string)
  {
    if a == [] then true
    else if b == [] then false
    else if a[0] != b[0] then a[0] < b[0]
    else LexLe(a[1..], b[1..])
  }

  // ---------------------------------------------------------------------
  // trim

  /** Trimming removes only whitespace, from both ends, and leaves none there. */
  lemma {:induction false} TrimStartSpec(s: string)
    ensures |TrimStart(s)| <= |s|
    ensures TrimStart(s) == s[|s| - |TrimStart(s)|..]
    ensures AllSpace(s[..|s| - |TrimStart(s)|])
    ensures TrimStart(s) != [] ==> !IsSpace(TrimStart(s)[0])
  {
    if s != [] && IsSpace(s[0]) {
      TrimStartSpec(s[1..]);
      var k := |s| - |TrimStart(s)|;
      assert s[..k] == [s[0]] + s[1..][..k - 1];
    }
  }

  lemma {:induction false} TrimEndSpec(s: string)
    ensures |TrimEnd(s)| <= |s|
    ensures TrimEnd(s) == s[..|TrimEnd(s)|]
    ensures AllSpace(s[|TrimEnd(s)|..])
    ensures TrimEnd(s) != [] ==> !IsSpace(TrimEnd(s)[|TrimEnd(s)| - 1])
  {
    if s != [] && IsSpace(s[|s| - 1]) {
      var init := s[..|s| - 1];
      TrimEndSpec(init);
      var k := |TrimEnd(s)|;
      assert s[k..] == init[k..] + [s[|s| - 1]];
    }
  }

  /** `trim` returns a contiguous part of its input, all that it drops is
      whitespace, and the result neither starts nor ends with whitespace. */
  lemma TrimSpec(s: string)
    ensures exists i, j :: 0 <= i <= j <= |s| && Trim(s) == s[i..j] && AllSpace(s[..i]) && AllSpace(s[j..])
    ensures Trim(s) != [] ==> !IsSpace(Trim(s)[0]) && !IsSpace(Trim(s)[|Trim(s)| - 1])
  {
    var a := TrimStart(s);
    TrimStartSpec(s);
    TrimEndSpec(a);
    var i := |s| - |a|;
    var j := i + |TrimEnd(a)|;
    assert Trim(s) == s[i..j];
    assert s[j..] == a[|TrimEnd(a)|..];
    if Trim(s) != [] {
      assert Trim(s)[0] == a[0];
    }
  }

  /** A string trims to the empty string exactly when it is all whitespace. */
  lemma TrimEmpty(s: string)
    ensures Trim(s) == [] <==> AllSpace(s)
  {
    TrimSpec(s);
    var i, j :| 0 <= i <= j <= |s| && Trim(s) == s[i..j] && AllSpace(s[..i]) && AllSpace(s[j..]);
    if Trim(s) == [] {
      assert i == j;
      forall k | 0 <= k < |s| ensures IsSpace(s[k]) {
        if k < i { assert s[k] == s[..i][k]; } else { assert s[k] == s[j..][k - j]; }
      }
    } else {
      assert !IsSpace(s[i]);
    }
  }

  // ---------------------------------------------------------------------
  // includes

  /** `includes` holds exactly when the pattern occurs at some position. */
  lemma {:induction false} ContainsOccurs(s: string, p: string)
    ensures Contains(s, p) <==> exists i :: OccursAt(s, p, i)
  {
    if StartsWith(s, p) {
      assert OccursAt(s, p, 0);
    } else if s == [] {
      assert forall i :: !OccursAt(s, p, i);
    } else {
      ContainsOccurs(s[1..], p);
      if exists i :: OccursAt(s, p, i) {
        var i :| OccursAt(s, p, i);
        assert i != 0;
        assert s[1..][i - 1..i - 1 + |p|] == s[i..i + |p|];
        assert OccursAt(s[1..], p, i - 1);
      }
      if exists i :: OccursAt(s[1..], p, i) {
        var i :| OccursAt(s[1..], p, i);
        assert s[i + 1..i + 1 + |p|] == s[1..][i..i + |p|];
        assert OccursAt(s, p, i + 1);
      }
    }
  }

  /** A part of a string contains the pattern only if the whole string does. */
  lemma ContainsInfix(s: string, i: int, j: int, p: string)
    requires 0 <= i <= j <= |s|
    requires Contains(s[i..j], p)
    ensures Contains(s, p)
  {
    ContainsOccurs(s[i..j], p);
    ContainsOccurs(s, p);
    var k :| OccursAt(s[i..j], p, k);
    assert 0 <= k && k + |p| <= j - i;
    forall m | 0 <= m < |p| ensures s[i + k..i + k + |p|][m] == p[m] {
      assert p[m] == s[i..j][k..k + |p|][m] == s[i..j][k + m];
    }
    assert OccursAt(s, p, i + k);
  }

  lemma {:induction false} ContainsShort(s: string, p: string)
    requires |s| < |p|
    ensures !Contains(s, p)
  {
    if s != [] {
      ContainsShort(s[1..], p);
    }
  }

  // ---------------------------------------------------------------------
  // replace

  /** A string that does not start with the pattern's first character keeps its
      first character through the removal. */
  lemma RemoveAllKeepsHead(s: string, p: string)
    requires p != [] && s != [] && s[0] != p[0]
    ensures RemoveAll(s, p) != [] && RemoveAll(s, p)[0] == s[0]
  {
    if |s| >= |p| {
      assert s[..|p|][0] != p[0];
    }
  }

  /** Removing every "```" leaves no "```" behind: the scan is leftmost, so a
      kept piece before a removed occurrence never ends in a backtick, and no
      new occurrence forms where the pieces are joined. */
  lemma {:induction false} RemoveAllFences(s: string)
    ensures !Contains(RemoveAll(s, "```"), "```")
  {
    var f := "```";
    if |s| < 3 {
      ContainsShort(s, f);
    } else if s[..3] == f {
      RemoveAllFences(s[3..]);
    } else {
      var t := s[1..];
      var rest := RemoveAll(t, f);
      RemoveAllFences(t);
      assert RemoveAll(s, f) == [s[0]] + rest;
      assert s[..3] == [s[0], s[1], s[2]];
      if s[0] == '`' {
        // s does not start with the fence, so one of s[1], s[2] is not a backtick
        if |t| < 3 {
          assert rest == t && t == [s[1], s[2]];
        } else {
          assert t[..3] == [s[1], s[2], t[2]];
          assert rest == [t[0]] + RemoveAll(t[1..], f);
          if s[1] == '`' {
            RemoveAllKeepsHead(t[1..], f);
            assert rest[1] == s[2];
          }
        }
        assert !(|rest| >= 2 && rest[0] == '`' && rest[1] == '`');
      }
      assert !StartsWith([s[0]] + rest, f);
    }
  }

  /** A string that does not contain the pattern is left as it is. */
  lemma {:induction false} RemoveAllAbsent(s: string, p: string)
    requires p != [] && !Contains(s, p)
    ensures RemoveAll(s, p) == s
  {
    if |s| >= |p| {
      assert s[..|p|] != p;
      RemoveAllAbsent(s[1..], p);
      assert s == [s[0]] + s[1..];
    }
  }

  /** A string that contains `p + q` contains `p`. */
  lemma {:induction false} ContainsPrefix(s: string, p: string, q: string)
    requires Contains(s, p + q)
    ensures Contains(s, p)
  {
    if StartsWith(s, p + q) {
      assert s[..|p|] == (p + q)[..|p|] == p;
    } else {
      ContainsPrefix(s[1..], p, q);
    }
  }

  /** A leading block that holds none of the pattern's first character is
      kept whole, and the removal goes on in what follows. */
  lemma {:induction false} RemoveAllSkip(a: string, b: string, p: string)
    requires p != []
    requires forall i :: 0 <= i < |a| ==> a[i] != p[0]
    ensures RemoveAll(a + b, p) == a + RemoveAll(b, p)
  {
    if a == [] {
      assert a + b == b;
    } else if |a + b| < |p| {
      assert RemoveAll(b, p) == b;
    } else {
      assert (a + b)[..|p|][0] == a[0] != p[0];
      assert (a + b)[1..] == a[1..] + b;
      RemoveAllSkip(a[1..], b, p);
      assert a == [a[0]] + a[1..];
    }
  }

  // ---------------------------------------------------------------------
  // <= on strings

  /** Comparing two strings that start with blocks of equal length: the first
      blocks decide unless they are equal. */
  lemma {:induction false} LexLeConcat(a: string, b: string, c: string, d: string)
    requires |a| == |c|
    ensures LexLe(a + b, c + d) == if a == c then LexLe(b, d) else LexLe(a, c)
  {
    if a != [] {
      assert (a + b)[0] == a[0] && (c + d)[0] == c[0];
      assert (a + b)[1..] == a[1..] + b && (c + d)[1..] == c[1..] + d;
      LexLeConcat(a[1..], b, c[1..], d);
      if a[0] == c[0] && a[1..] == c[1..] {
        assert a == c;
      }
      if a == c {
        assert a[1..] == c[1..];
      }
    } else {
      assert a + b == b && c + d == d;
    }
  }
}
