/**
 * The JavaScript string and array built-ins the game relies on, defined on `seq<char>`:
 * `includes`, `replace` with a global literal pattern, `trim`, `indexOf`, `lastIndexOf`,
 * `substring`, `Array.prototype.find`, the removal of a trailing run of one character
 * (`replace(/c+$/, '')`) and the decimal rendering of integers in template strings.
 */
module JsStrings {
  import opened Wrappers

  predicate StartsWith(s: string, p: string) {
    |p| <= |s| && s[..|p|] == p
  }

  predicate EndsWith(s: string, p: string) {
    |p| <= |s| && s[|s| - |p|..] == p
  }

  /** `p` occurs in `s` at index `i`. */
  predicate OccursAt(s: string, p: string, i: int) {
    0 <= i && i + |p| <= |s| && s[i..i + |p|] == p
  }

  /** `s.includes(p)`. */
  predicate Contains(s: string, p: string)
    decreases |s|
  {
    |p| <= |s| && (StartsWith(s, p) || (|s| > 0 && Contains(s[1..], p)))
  }

  /** `includes` agrees with the positional definition of an occurrence. */
  lemma {:induction false} ContainsIffOccurs(s: string, p: string)
    ensures Contains(s, p) <==> exists i :: OccursAt(s, p, i)
    decreases |s|
  {
    if StartsWith(s, p) {
      assert OccursAt(s, p, 0);
    }
    if |s| > 0 {
      ContainsIffOccurs(s[1..], p);
      if Contains(s[1..], p) {
        var i :| OccursAt(s[1..], p, i);
        assert s[1..][i..i + |p|] == s[i + 1..i + 1 + |p|];
        assert OccursAt(s, p, i + 1);
      }
      if exists i :: OccursAt(s, p, i) {
        var i :| OccursAt(s, p, i);
        if i > 0 {
          assert s[1..][i - 1..i - 1 + |p|] == s[i..i + |p|];
          assert OccursAt(s[1..], p, i - 1);
        } else {
          assert StartsWith(s, p);
        }
      }
    } else if exists i :: OccursAt(s, p, i) {
      var i :| OccursAt(s, p, i);
      assert StartsWith(s, p);
    }
  }

  /** An occurrence inside an occurrence is an occurrence. */
  lemma ContainsTransitive(s: string, t: string, p: string)
    requires Contains(s, t) && Contains(t, p)
    ensures Contains(s, p)
  {
    ContainsIffOccurs(s, t);
    ContainsIffOccurs(t, p);
    var i :| OccursAt(s, t, i);
    var j :| OccursAt(t, p, j);
    forall k | 0 <= k < |p|
      ensures s[i + j + k] == p[k]
    {
      assert p[k] == t[j + k];
    }
    assert s[i + j..i + j + |p|] == p;
    assert OccursAt(s, p, i + j);
    ContainsIffOccurs(s, p);
  }

  /** Every slice of `s` occurs in `s`. */
  lemma SliceOccurs(s: string, i: int, j: int)
    requires 0 <= i <= j <= |s|
    ensures Contains(s, s[i..j])
  {
    assert OccursAt(s, s[i..j], i);
    ContainsIffOccurs(s, s[i..j]);
  }

  /** An occurrence survives text appended on either side. */
  lemma ContainsInContext(a: string, t: string, b: string, p: string)
    requires Contains(t, p)
    ensures Contains(a + t + b, p)
  {
    ContainsIffOccurs(t, p);
    var i :| OccursAt(t, p, i);
    assert (a + t + b)[|a| + i..|a| + i + |p|] == t[i..i + |p|];
    assert OccursAt(a + t + b, p, |a| + i);
    ContainsIffOccurs(a + t + b, p);
  }

  /** A template literal: its pieces, literal text and interpolated values, joined in order. */
  function Concat(pieces: seq<string>): (r: string)
    ensures |pieces| > 0 ==> StartsWith(r, pieces[0])
  {
    if |pieces| == 0 then "" else pieces[0] + Concat(pieces[1..])
  }

  /** Every piece of a template literal occurs in the string it produces. */
  lemma {:induction false} ConcatContainsPiece(pieces: seq<string>, i: int)
    requires 0 <= i < |pieces|
    ensures Contains(Concat(pieces), pieces[i])
  {
    if i == 0 {
      SliceOccurs(pieces[0], 0, |pieces[0]|);
      assert pieces[0][0..|pieces[0]|] == pieces[0];
      ContainsInContext([], pieces[0], Concat(pieces[1..]), pieces[0]);
      assert [] + pieces[0] + Concat(pieces[1..]) == Concat(pieces);
    } else {
      ConcatContainsPiece(pieces[1..], i - 1);
      ContainsInContext(pieces[0], Concat(pieces[1..]), [], pieces[i]);
      assert pieces[0] + Concat(pieces[1..]) + [] == Concat(pieces);
    }
  }

  /** A longer pattern that starts with `q` can only occur where `q` occurs. */
  lemma ContainsExtension(s: string, q: string, p: string)
    requires StartsWith(p, q) && Contains(s, p)
    ensures Contains(s, q)
  {
    ContainsIffOccurs(s, p);
    var i :| OccursAt(s, p, i);
    assert s[i..i + |q|] == s[i..i + |p|][..|q|];
    assert OccursAt(s, q, i);
    ContainsIffOccurs(s, q);
  }

  /**
   * `s.replace(/pat/g, rep)` for a literal `pat`: scanning from the left, each occurrence
   * not overlapping an earlier replaced one is replaced by `rep`.
   */
  function ReplaceAll(s: string, pat: string, rep: string): (r: string)
    requires |pat| > 0
    decreases |s|
  {
    if |s| < |pat| then s
    else if StartsWith(s, pat) then rep + ReplaceAll(s[|pat|..], pat, rep)
    else [s[0]] + ReplaceAll(s[1..], pat, rep)
  }

  /** Where the pattern does not occur, replacing it changes nothing. */
  lemma {:induction false} ReplaceAllAbsent(s: string, pat: string, rep: string)
    requires |pat| > 0 && !Contains(s, pat)
    ensures ReplaceAll(s, pat, rep) == s
    decreases |s|
  {
    if |s| >= |pat| {
      ReplaceAllAbsent(s[1..], pat, rep);
      assert [s[0]] + s[1..] == s;
    }
  }

  /**
   * No occurrence can straddle a character foreign to the pattern, so replacing in
   * `a + b` replaces in `a` and in `b` separately when `b` begins with such a character.
   */
  lemma {:induction false} ReplaceAllSplit(a: string, b: string, pat: string, rep: string)
    requires |pat| > 0 && |b| > 0 && b[0] !in pat
    ensures ReplaceAll(a + b, pat, rep) == ReplaceAll(a, pat, rep) + ReplaceAll(b, pat, rep)
    decreases |a|, 1
  {
    var s := a + b;
    if |a| == 0 {
      assert s == b;
    } else if |s| < |pat| {
      assert ReplaceAll(a, pat, rep) == a;
      assert ReplaceAll(b, pat, rep) == b;
    } else if StartsWith(s, pat) {
      ReplaceAllSplitAtMatch(a, b, pat, rep);
    } else {
      ReplaceAllSplitPastChar(a, b, pat, rep);
    }
  }

  /** The split when `a + b` starts with the pattern: the match lies inside `a`. */
  lemma {:induction false} ReplaceAllSplitAtMatch(a: string, b: string, pat: string, rep: string)
    requires |pat| > 0 && |b| > 0 && b[0] !in pat
    requires |a| > 0 && StartsWith(a + b, pat)
    ensures ReplaceAll(a + b, pat, rep) == ReplaceAll(a, pat, rep) + ReplaceAll(b, pat, rep)
    decreases |a|, 0
  {
    var s := a + b;
    var k := Min(|a|, |pat| - 1);
    assert pat[k] == s[k];
    assert |pat| <= |a|;
    assert s[..|pat|] == a[..|pat|];
    var a' := a[|pat|..];
    assert s[|pat|..] == a' + b;
    ReplaceAllSplit(a', b, pat, rep);
  }

  /** The split when `a + b` does not start with the pattern: its first character is kept. */
  lemma {:induction false} ReplaceAllSplitPastChar(a: string, b: string, pat: string, rep: string)
    requires |pat| > 0 && |b| > 0 && b[0] !in pat
    requires |a| > 0 && |a + b| >= |pat| && !StartsWith(a + b, pat)
    ensures ReplaceAll(a + b, pat, rep) == ReplaceAll(a, pat, rep) + ReplaceAll(b, pat, rep)
    decreases |a|, 0
  {
    var s := a + b;
    var a' := a[1..];
    assert s[1..] == a' + b;
    assert s[0] == a[0];
    ReplaceAllSplit(a', b, pat, rep);
    var ra, rb := ReplaceAll(a', pat, rep), ReplaceAll(b, pat, rep);
    assert ReplaceAll(s, pat, rep) == [a[0]] + (ra + rb);
    if |a| >= |pat| {
      assert a[..|pat|] == s[..|pat|];
      assert ReplaceAll(a, pat, rep) == [a[0]] + ra;
    } else {
      assert ra == a';
      assert [a[0]] + a' == a;
      assert ReplaceAll(a, pat, rep) == [a[0]] + ra;
    }
    assert [a[0]] + (ra + rb) == ([a[0]] + ra) + rb;
  }

  /** A leading character foreign to the pattern is kept as it is. */
  lemma ReplaceAllForeignHead(c: char, s: string, pat: string, rep: string)
    requires |pat| > 0 && c !in pat
    ensures ReplaceAll([c] + s, pat, rep) == [c] + ReplaceAll(s, pat, rep)
  {
    assert [c] + s == [] + ([c] + s);
    if |[c] + s| >= |pat| {
      assert !StartsWith([c] + s, pat) by { assert ([c] + s)[0] == c; }
      assert ([c] + s)[1..] == s;
    } else {
      assert !Contains(s, pat);
    }
  }

  /** What `includes` sees in a string with one more character in front. */
  lemma ContainsCons(c: char, t: string, p: string)
    requires |p| > 0
    ensures Contains([c] + t, p) <==> StartsWith([c] + t, p) || Contains(t, p)
  {
    assert ([c] + t)[1..] == t;
    if Contains(t, p) {
      assert |p| <= |t|;
    }
  }

  /** A prefix of `[c] + t` longer than one character continues into `t`. */
  lemma ConsStartsWith(c: char, t: string, p: string)
    requires |p| > 0
    ensures StartsWith([c] + t, p) ==> StartsWith(t, p[1..])
  {
    if StartsWith([c] + t, p) {
      assert t[..|p| - 1] == ([c] + t)[1..|p|] == p[1..];
    }
  }

  /**
   * Removing every occurrence of three backticks leaves none: a run of backticks
   * shrinks to fewer than three and nothing new is joined across a removal.
   */
  lemma {:induction false} RemovingTicksLeavesNone(s: string)
    ensures !Contains(ReplaceAll(s, "```", ""), "```")
    ensures !StartsWith(s, "``") ==> !StartsWith(ReplaceAll(s, "```", ""), "``")
    decreases |s|
  {
    var r := ReplaceAll(s, "```", "");
    if |s| < 3 {
      assert r == s;
    } else if StartsWith(s, "```") {
      RemovingTicksLeavesNone(s[3..]);
      assert r == ReplaceAll(s[3..], "```", "");
      assert s[..2] == s[..3][..2];
    } else {
      var t := ReplaceAll(s[1..], "```", "");
      assert r == [s[0]] + t;
      RemovingTicksLeavesNone(s[1..]);
      ContainsCons(s[0], t, "```");
      if s[0] == '`' {
        assert s[1..][..2] == s[1..3];
        assert !StartsWith(s[1..], "``") by {
          assert s[..3] == [s[0]] + s[1..3];
        }
        ConsStartsWith(s[0], t, "```");
        if !StartsWith(s, "``") {
          assert s[1] != '`' by { assert s[..2] == [s[0], s[1]]; }
          ReplaceAllForeignHead(s[1], s[2..], "```", "");
          assert [s[1]] + s[2..] == s[1..];
          assert t[0] == s[1];
          assert r[..2] == [s[0], t[0]];
        }
      } else {
        assert r[0] == s[0];
      }
    }
  }

  /** The characters `String.prototype.trim` removes: white space and line terminators. */
  predicate IsJsWhitespace(c: char) {
    || c == ' ' || c == '\t' || c == '\n' || c == '\r'
    || c as int == 0x0B || c as int == 0x0C || c as int == 0xA0 || c as int == 0xFEFF
    || c as int == 0x1680 || (0x2000 <= c as int <= 0x200A)
    || c as int == 0x2028 || c as int == 0x2029 || c as int == 0x202F
    || c as int == 0x205F || c as int == 0x3000
  }

  predicate AllWhitespace(s: string) {
    forall i :: 0 <= i < |s| ==> IsJsWhitespace(s[i])
  }

  function TrimStart(s: string): (r: string)
    ensures |r| <= |s| && r == s[|s| - |r|..]
    ensures r == [] || !IsJsWhitespace(r[0])
    ensures AllWhitespace(s[..|s| - |r|])
    decreases |s|
  {
    if |s| > 0 && IsJsWhitespace(s[0]) then
      var r := TrimStart(s[1..]);
      assert s[..|s| - |r|] == [s[0]] + s[1..][..|s[1..]| - |r|];
      r
    else s
  }

  function TrimEnd(s: string): (r: string)
    ensures |r| <= |s| && r == s[..|r|]
    ensures r == [] || !IsJsWhitespace(r[|r| - 1])
    ensures AllWhitespace(s[|r|..])
    decreases |s|
  {
    if |s| > 0 && IsJsWhitespace(s[|s| - 1]) then
      var p := s[..|s| - 1];
      var r := TrimEnd(p);
      assert s[|r|..] == p[|r|..] + [s[|s| - 1]];
      assert s[..|r|] == p[..|r|];
      r
    else s
  }

  /** `s.trim()`: whitespace removed at both ends, so the result neither starts nor ends with it. */
  function Trim(s: string): (r: string)
    ensures r == [] || (!IsJsWhitespace(r[0]) && !IsJsWhitespace(r[|r| - 1]))
  {
    TrimEnd(TrimStart(s))
  }

  /** What `trim` keeps is a slice of `s`: the part left once the whitespace at both ends is cut off. */
  lemma TrimIsSlice(s: string)
    ensures Contains(s, Trim(s))
  {
    var t := TrimStart(s);
    PrefixOfSuffix(s, t, TrimEnd(t));
  }

  /** A prefix `r` of a suffix `t` of `s` occurs in `s`. */
  lemma PrefixOfSuffix(s: string, t: string, r: string)
    requires |t| <= |s| && t == s[|s| - |t|..] && |r| <= |t| && r == t[..|r|]
    ensures Contains(s, r)
  {
    var k := |s| - |t|;
    assert r == s[k..k + |r|];
    SliceOccurs(s, k, k + |r|);
  }

  /** Trimming keeps a slice, so it cannot create an occurrence. */
  lemma TrimKeepsAbsence(s: string, p: string)
    requires !Contains(s, p)
    ensures !Contains(Trim(s), p)
  {
    var r := Trim(s);
    if Contains(r, p) {
      TrimIsSlice(s);
      ContainsTransitive(s, r, p);
    }
  }

  lemma TrimIdempotent(s: string)
    ensures Trim(Trim(s)) == Trim(s)
  {
    var r := Trim(s);
    assert TrimStart(r) == r;
    assert TrimEnd(r) == r;
  }

  /** Leading whitespace in front of a string with more text is dropped. */
  lemma {:induction false} TrimStartAppend(z: string, w: string)
    ensures TrimStart(z + w) == if TrimStart(z) == [] then TrimStart(w) else TrimStart(z) + w
    decreases |z|
  {
    if |z| == 0 {
      assert z + w == w;
    } else {
      assert (z + w)[0] == z[0];
      if IsJsWhitespace(z[0]) {
        assert (z + w)[1..] == z[1..] + w;
        TrimStartAppend(z[1..], w);
      }
    }
  }

  /** Whitespace wrapped around a string does not change what `trim` returns. */
  lemma TrimIgnoresPadding(z: string, lead: char, trail: char)
    requires IsJsWhitespace(lead) && IsJsWhitespace(trail)
    ensures Trim([lead] + z + [trail]) == Trim(z)
  {
    var s := [lead] + z + [trail];
    assert s[1..] == z + [trail];
    assert TrimStart(s) == TrimStart(z + [trail]);
    TrimStartAppend(z, [trail]);
    if TrimStart(z) == [] {
      assert TrimStart([trail]) == TrimStart([trail][1..]);
    } else {
      var u := TrimStart(z);
      assert (u + [trail])[..|u + [trail]| - 1] == u;
    }
  }

  /** `s.replace(/c+$/, '')`: the trailing run of `c` removed. */
  function TrimTrailing(s: string, c: char): (r: string)
    ensures StartsWith(s, r)
    ensures r == [] || r[|r| - 1] != c
    ensures forall i :: |r| <= i < |s| ==> s[i] == c
    decreases |s|
  {
    if |s| > 0 && s[|s| - 1] == c then TrimTrailing(s[..|s| - 1], c) else s
  }

  /** `s.indexOf(c)`: the first index holding `c`, or -1. */
  function IndexOf(s: string, c: char): (i: int)
    ensures -1 <= i < |s|
    ensures i == -1 <==> c !in s
    ensures 0 <= i ==> s[i] == c && forall m :: 0 <= m < i ==> s[m] != c
    decreases |s|
  {
    if |s| == 0 then -1
    else if s[0] == c then 0
    else
      var k := IndexOf(s[1..], c);
      assert c in s <==> c in s[1..] by {
        assert s == [s[0]] + s[1..];
      }
      if k == -1 then -1
      else k + 1
  }

  /** `s.lastIndexOf(c)`: the last index holding `c`, or -1. */
  function LastIndexOf(s: string, c: char): (i: int)
    ensures -1 <= i < |s|
    ensures i == -1 <==> c !in s
    ensures 0 <= i ==> s[i] == c && forall m :: i < m < |s| ==> s[m] != c
    decreases |s|
  {
    if |s| == 0 then -1
    else if s[|s| - 1] == c then |s| - 1
    else
      var t := s[..|s| - 1];
      var k := LastIndexOf(t, c);
      assert c in s <==> c in t by {
        assert s == t + [s[|s| - 1]];
      }
      k
  }

  /** The first index holding `c` is the one with `c` there and nowhere before it. */
  lemma IndexOfIs(s: string, c: char, k: int)
    requires 0 <= k < |s| && s[k] == c && forall m :: 0 <= m < k ==> s[m] != c
    ensures IndexOf(s, c) == k
  {
  }

  /** The last index holding `c` is the one with `c` there and nowhere after it. */
  lemma LastIndexOfIs(s: string, c: char, k: int)
    requires 0 <= k < |s| && s[k] == c && forall m :: k < m < |s| ==> s[m] != c
    ensures LastIndexOf(s, c) == k
  {
  }

  /** `substring` with its bounds in order is the plain slice. */
  lemma SubstringInOrder(s: string, i: int, j: int)
    requires 0 <= i <= j <= |s|
    ensures Substring(s, i, j) == s[i..j]
  {
  }

  /** `substring` with its bounds reversed is the slice between them. */
  lemma SubstringSwapped(s: string, i: int, j: int)
    requires 0 <= j < i <= |s|
    ensures Substring(s, i, j) == s[j..i]
  {
  }

  function Min(a: int, b: int): int { if a <= b then a else b }

  function Max(a: int, b: int): int { if a >= b then a else b }

  /**
   * `s.substring(start, end)`: both indices are clamped to `[0, |s|]` and swapped when
   * `start` is the larger, so the result is always the slice between them.
   */
  function Substring(s: string, start: int, end: int): (r: string)
    ensures Contains(s, r)
  {
    var a := Min(Max(start, 0), |s|);
    var b := Min(Max(end, 0), |s|);
    var lo := Min(a, b);
    var hi := Max(a, b);
    SliceOccurs(s, lo, hi);
    s[lo..hi]
  }

  /** `array.find(pred)`: the first element satisfying `pred`, or nothing. */
  function Find<T(==)>(s: seq<T>, pred: T -> bool): (r: Option<T>)
    ensures r.None? <==> forall i :: 0 <= i < |s| ==> !pred(s[i])
    ensures r.Some? ==> exists i :: 0 <= i < |s| && s[i] == r.value && pred(s[i]) && forall j :: 0 <= j < i ==> !pred(s[j])
    decreases |s|
  {
    if |s| == 0 then None
    else if pred(s[0]) then Some(s[0])
    else
      var r := Find(s[1..], pred);
      if r.Some? then
        var i :| 0 <= i < |s[1..]| && s[1..][i] == r.value && pred(s[1..][i]) && forall j :: 0 <= j < i ==> !pred(s[1..][j]);
        assert s[i + 1] == r.value && forall j :: 0 <= j < i + 1 ==> !pred(s[j]);
        r
      else r
  }

  function DigitChar(d: int): char
    requires 0 <= d < 10
  {
    ('0' as int + d) as char
  }

  predicate IsDigits(s: string) {
    forall i :: 0 <= i < |s| ==> '0' <= s[i] <= '9'
  }

  /** The number a string of decimal digits denotes. */
  function DigitsValue(s: string): nat
    requires IsDigits(s)
    decreases |s|
  {
    if |s| == 0 then 0 else DigitsValue(s[..|s| - 1]) * 10 + (s[|s| - 1] as int - '0' as int)
  }

  /** How a non-negative integer is rendered inside a template string. */
  function NatToString(n: nat): (s: string)
    ensures |s| > 0 && IsDigits(s)
    ensures DigitsValue(s) == n
    decreases n
  {
    if n < 10 then [DigitChar(n)]
    else
      var r := NatToString(n / 10) + [DigitChar(n % 10)];
      assert r[..|r| - 1] == NatToString(n / 10);
      r
  }

  function IntToString(n: int): (s: string)
    ensures |s| > 0
    ensures n < 0 <==> s[0] == '-'
  {
    if n < 0 then "-" + NatToString(-n) else NatToString(n)
  }
}
