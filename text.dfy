/** The JavaScript string operations the core relies on, over `seq<char>`:
    `startsWith`, `endsWith`, `includes`, `replace` with a string pattern,
    `toUpperCase` (ASCII letters only), `trim` and number-to-string. */
module Text {

  predicate StartsWith(s: string, p: string) {
    |p| <= |s| && s[..|p|] == p
  }

  predicate EndsWith(s: string, p: string) {
    |p| <= |s| && s[|s| - |p|..] == p
  }

  /** `p` occurs in `s` starting at index `i`. */
  predicate OccursAt(s: string, p: string, i: int) {
    0 <= i && i + |p| <= |s| && s[i..i + |p|] == p
  }

  /** `s.includes(p)`: scans the start positions from left to right. */
  function Includes(s: string, p: string): bool
    decreases |s|
  {
    StartsWith(s, p) || (s != [] && Includes(s[1..], p))
  }

  lemma {:induction false} OccursThenIncludes(s: string, p: string, i: int)
    requires OccursAt(s, p, i)
    ensures Includes(s, p)
    decreases i
  {
    if i == 0 {
      assert s[..|p|] == p;
    } else if !StartsWith(s, p) {
      assert s[1..][i - 1..i - 1 + |p|] == s[i..i + |p|];
      OccursThenIncludes(s[1..], p, i - 1);
    }
  }

  lemma {:induction false} IncludesThenOccurs(s: string, p: string) returns (i: int)
    requires Includes(s, p)
    ensures OccursAt(s, p, i)
    decreases |s|
  {
    if StartsWith(s, p) {
      i := 0;
    } else {
      var j := IncludesThenOccurs(s[1..], p);
      assert s[1..][j..j + |p|] == s[j + 1..j + 1 + |p|];
      i := j + 1;
    }
  }

  /** A text shorter than the pattern does not include it. */
  lemma IncludesNotLonger(s: string, p: string)
    ensures Includes(s, p) ==> |p| <= |s|
  {
    if Includes(s, p) {
      var i := IncludesThenOccurs(s, p);
    }
  }

  /** A pattern whose first character does not occur in the text is not
      included in it. */
  lemma {:induction false} FirstCharAbsent(s: string, p: string)
    requires p != [] && forall k :: 0 <= k < |s| ==> s[k] != p[0]
    ensures !Includes(s, p)
    decreases |s|
  {
    if s != [] {
      if |p| <= |s| {
        assert s[..|p|][0] == s[0];
      }
      FirstCharAbsent(s[1..], p);
    }
  }

  /** Start positions inside a prefix that lacks the pattern's first
      character contribute nothing to the scan. */
  lemma {:induction false} IncludesSkip(a: string, b: string, p: string)
    requires p != [] && forall k :: 0 <= k < |a| ==> a[k] != p[0]
    ensures Includes(a + b, p) == Includes(b, p)
    decreases |a|
  {
    if a == [] {
      assert a + b == b;
    } else {
      var s := a + b;
      if |p| <= |s| {
        assert s[..|p|][0] == a[0];
      }
      assert s[1..] == a[1..] + b;
      IncludesSkip(a[1..], b, p);
    }
  }

  /** `s.includes(p)` holds exactly when `p` occurs somewhere in `s`. */
  lemma IncludesIff(s: string, p: string)
    ensures Includes(s, p) <==> exists i :: OccursAt(s, p, i)
  {
    if Includes(s, p) {
      var i := IncludesThenOccurs(s, p);
    }
    forall i | OccursAt(s, p, i) ensures Includes(s, p) {
      OccursThenIncludes(s, p, i);
    }
  }

  /** A text that includes `a + b` includes `a`. */
  lemma IncludesPrefix(s: string, a: string, b: string)
    requires Includes(s, a + b)
    ensures Includes(s, a)
  {
    var i := IncludesThenOccurs(s, a + b);
    assert s[i..i + |a|] == (a + b)[..|a|] == a;
    OccursThenIncludes(s, a, i);
  }

  /** `s.replace(pat, rep)` with a string pattern: only the first occurrence is replaced. */
  function ReplaceFirst(s: string, pat: string, rep: string): (r: string)
    ensures !Includes(s, pat) ==> r == s
    ensures StartsWith(s, pat) ==> r == rep + s[|pat|..]
    decreases |s|
  {
    if StartsWith(s, pat) then rep + s[|pat|..]
    else if s == [] then s
    else [s[0]] + ReplaceFirst(s[1..], pat, rep)
  }

  /** The general case of `replace` with a string pattern: when `i` is the
      first index at which the pattern occurs, exactly that occurrence is
      replaced and the rest of the text is kept. */
  lemma {:induction false} ReplaceFirstAt(s: string, pat: string, rep: string, i: nat)
    requires OccursAt(s, pat, i)
    requires forall j :: 0 <= j < i ==> !OccursAt(s, pat, j)
    ensures ReplaceFirst(s, pat, rep) == s[..i] + rep + s[i + |pat|..]
    decreases i
  {
    if i == 0 {
      assert s[..|pat|] == s[0..0 + |pat|];
      assert s[..0] == [];
    } else {
      var t := s[1..];
      OccursShift(s, pat, i);
      ReplaceFirstAt(t, pat, rep, i - 1);
      StartsWithAtZero(s, pat);
      assert s == [s[0]] + t;
      ReplaceFirstCons(s[0], t, pat, rep);
      ConsSplit(s, i, |pat|, rep);
    }
  }

  /** An occurrence at index `i > 0` that is the first one in `s` is the first
      one in `s[1..]`, one index earlier. */
  lemma OccursShift(s: string, pat: string, i: nat)
    requires 0 < i && OccursAt(s, pat, i)
    requires forall j :: 0 <= j < i ==> !OccursAt(s, pat, j)
    ensures OccursAt(s[1..], pat, i - 1)
    ensures forall j :: 0 <= j < i - 1 ==> !OccursAt(s[1..], pat, j)
  {
    assert s[1..][i - 1..i - 1 + |pat|] == s[i..i + |pat|];
    forall j | 0 <= j < i - 1
      ensures !OccursAt(s[1..], pat, j)
    {
      assert !OccursAt(s, pat, j + 1);
      if j + |pat| <= |s| - 1 {
        assert s[1..][j..j + |pat|] == s[j + 1..j + 1 + |pat|];
      }
    }
  }

  /** Starting with the pattern is occurring at index 0. */
  lemma StartsWithAtZero(s: string, pat: string)
    ensures StartsWith(s, pat) <==> OccursAt(s, pat, 0)
  {
    if |pat| <= |s| {
      assert s[0..0 + |pat|] == s[..|pat|];
    }
  }

  lemma ConsSplit(s: string, i: nat, n: nat, rep: string)
    requires 0 < i && i + n <= |s|
    ensures [s[0]] + (s[1..][..i - 1] + rep + s[1..][i - 1 + n..]) == s[..i] + rep + s[i + n..]
  {
    assert s[1..][..i - 1] == s[1..i];
    assert s[1..][i - 1 + n..] == s[i + n..];
    assert [s[0]] + s[1..i] == s[..i];
  }

  /** When `p` does not occur in `x` and its first character does not recur
      in it, the first occurrence of `p` in `x + p` is the appended one. */
  lemma {:induction false} ReplaceFirstAppended(x: string, p: string, rep: string)
    requires p != [] && !Includes(x, p)
    requires forall m :: 0 < m < |p| ==> p[m] != p[0]
    ensures ReplaceFirst(x + p, p, rep) == x + rep
    decreases |x|
  {
    if x == [] {
      assert x + p == p;
      assert StartsWith(p, p);
    } else {
      NotAtStart(x, p);
      ReplaceFirstAppended(x[1..], p, rep);
      ReplaceFirstAppendedStep(x, p, rep);
    }
  }

  /** One character of `x` in front of a text whose replacement is known. */
  lemma ReplaceFirstAppendedStep(x: string, p: string, rep: string)
    requires x != [] && !StartsWith(x + p, p)
    requires ReplaceFirst(x[1..] + p, p, rep) == x[1..] + rep
    ensures ReplaceFirst(x + p, p, rep) == x + rep
  {
    assert x + p == [x[0]] + (x[1..] + p);
    ReplaceFirstCons(x[0], x[1..] + p, p, rep);
    assert [x[0]] + (x[1..] + rep) == x + rep;
  }

  /** A character at which the pattern does not start is kept. */
  lemma ReplaceFirstCons(c: char, t: string, p: string, rep: string)
    requires !StartsWith([c] + t, p)
    ensures ReplaceFirst([c] + t, p, rep) == [c] + ReplaceFirst(t, p, rep)
  {
    assert ([c] + t)[1..] == t;
  }

  lemma NotAtStart(x: string, p: string)
    requires x != [] && p != [] && !Includes(x, p)
    requires forall m :: 0 < m < |p| ==> p[m] != p[0]
    ensures !StartsWith(x + p, p)
  {
    if |x| >= |p| {
      assert (x + p)[..|p|] == x[..|p|];
    } else {
      var c, d := (x + p)[|x|], p[|x|];
      assert c == p[0];
      assert StartsWith(x + p, p) ==> c == d;
    }
  }

  predicate IsAsciiLower(c: char) { 'a' <= c <= 'z' }
  predicate IsAsciiUpper(c: char) { 'A' <= c <= 'Z' }
  predicate IsAsciiDigit(c: char) { '0' <= c <= '9' }

  function UpperChar(c: char): (u: char)
    ensures IsAsciiLower(c) ==> IsAsciiUpper(u) && u as int == c as int - 32
    ensures !IsAsciiLower(c) ==> u == c
  {
    if IsAsciiLower(c) then (c as int - 32) as char else c
  }

  /** `s.toUpperCase()` for ASCII letters; every other character is kept. */
  function ToUpper(s: string): (r: string)
    ensures |r| == |s|
    ensures forall i :: 0 <= i < |s| ==> r[i] == UpperChar(s[i])
  {
    seq(|s|, i requires 0 <= i < |s| => UpperChar(s[i]))
  }

  /** The characters `String.prototype.trim` removes: ECMAScript WhiteSpace
      (tab, vertical tab, form feed, U+FEFF and the space separators) and
      LineTerminator (LF, CR, U+2028, U+2029). */
  predicate IsJsSpace(c: char) {
    c == ' ' || c == '\t' || c == '\n' || c == '\r' || c == '\U{000B}' || c == '\U{000C}'
    || c == '\U{00A0}' || c == '\U{1680}' || ('\U{2000}' <= c <= '\U{200A}')
    || c == '\U{2028}' || c == '\U{2029}' || c == '\U{202F}' || c == '\U{205F}'
    || c == '\U{3000}' || c == '\U{FEFF}'
  }

  predicate Blank(s: string) {
    forall i :: 0 <= i < |s| ==> IsJsSpace(s[i])
  }

  function TrimStart(s: string): (r: string)
    ensures |r| <= |s| && r == s[|s| - |r|..]
    ensures Blank(s[..|s| - |r|])
    ensures r == [] || !IsJsSpace(r[0])
  {
    if s != [] && IsJsSpace(s[0]) then
      var r := TrimStart(s[1..]);
      assert s[1..][..|s[1..]| - |r|] == s[1..|s| - |r|];
      r
    else s
  }

  function TrimEnd(s: string): (r: string)
    ensures |r| <= |s| && r == s[..|r|]
    ensures Blank(s[|r|..])
    ensures r == [] || !IsJsSpace(r[|r| - 1])
    ensures r == [] ==> Blank(s)
  {
    if s != [] && IsJsSpace(s[|s| - 1]) then
      var r := TrimEnd(s[..|s| - 1]);
      assert s[|r|..] == s[..|s| - 1][|r|..] + [s[|s| - 1]];
      r
    else s
  }

  /** `s.trim()` */
  function Trim(s: string): (r: string) {
    TrimEnd(TrimStart(s))
  }

  /** A string trims to the empty string exactly when it is blank. */
  lemma TrimEmptyIff(s: string)
    ensures Trim(s) == [] <==> Blank(s)
  {
    var t := TrimStart(s);
    if t == [] {
      assert s[..|s| - |t|] == s;
    } else {
      assert !IsJsSpace(s[|s| - |t|]);
      assert !Blank(t);
    }
  }

  function DigitChar(d: nat): char
    requires d < 10
  {
    "0123456789"[d]
  }

  /** Decimal digits of a natural number, most significant first. */
  function Decimal(n: nat): (r: string)
    ensures |r| >= 1
    ensures forall i :: 0 <= i < |r| ==> IsAsciiDigit(r[i])
    ensures n < 10 <==> |r| == 1
  {
    if n < 10 then [DigitChar(n)] else Decimal(n / 10) + [DigitChar(n % 10)]
  }

  /** Template-literal rendering of an integer number. */
  function IntToString(i: int): string {
    if i < 0 then "-" + Decimal(-i) else Decimal(i)
  }
}
