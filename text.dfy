/** String operations of the Rust standard library that the core relies on:
    `u64::to_string`, `str::to_lowercase`, `str::replace`, `str::trim` and
    `str::starts_with`, each written out over `seq<char>`.
 */
module Text {

  // ---------------------------------------------------------------------
  // Decimal rendering (`u64::to_string`)
  // ---------------------------------------------------------------------

  predicate IsDigit(c: char)
  {
    '0' <= c <= '9'
  }

  function DigitChar(d: nat): (c: char)
    requires d < 10
    ensures IsDigit(c)
  {
    ('0' as int + d) as char
  }

  function DigitValue(c: char): (d: nat)
    requires IsDigit(c)
    ensures d < 10
  {
    c as int - '0' as int
  }

  /** The decimal text of `n`: digits only, never empty, and with no
      leading zero unless `n` is zero itself. */
  function Decimal(n: nat): (r: string)
    ensures |r| >= 1
    ensures forall k | 0 <= k < |r| :: IsDigit(r[k])
    ensures |r| > 1 ==> r[0] != '0'
    ensures r == "0" <==> n == 0
    decreases n
  {
    if n < 10 then [DigitChar(n)] else Decimal(n / 10) + [DigitChar(n % 10)]
  }

  /** Reading a string of digits back as a number. */
  function ParseDecimal(s: string): nat
    requires forall k | 0 <= k < |s| :: IsDigit(s[k])
  {
    if s == [] then 0
    else ParseDecimal(s[..|s| - 1]) * 10 + DigitValue(s[|s| - 1])
  }

  lemma {:induction false} DecimalRoundTrip(n: nat)
    ensures ParseDecimal(Decimal(n)) == n
    decreases n
  {
    if n >= 10 {
      var d := Decimal(n);
      assert d[..|d| - 1] == Decimal(n / 10);
      DecimalRoundTrip(n / 10);
    }
  }

  /** Distinct ids render to distinct strings. */
  lemma DecimalInjective(a: nat, b: nat)
    requires Decimal(a) == Decimal(b)
    ensures a == b
  {
    DecimalRoundTrip(a);
    DecimalRoundTrip(b);
  }

  // ---------------------------------------------------------------------
  // Case folding (ASCII letters only)
  // ---------------------------------------------------------------------

  predicate IsUpper(c: char)
  {
    'A' <= c <= 'Z'
  }

  function LowerChar(c: char): (r: char)
    ensures !IsUpper(r)
  {
    if IsUpper(c) then (c as int + 32) as char else c
  }

  /** `to_lowercase`, restricted to the ASCII letters. */
  function Lower(s: string): (r: string)
    ensures |r| == |s|
    ensures forall k | 0 <= k < |r| :: !IsUpper(r[k])
  {
    seq(|s|, k requires 0 <= k < |s| => LowerChar(s[k]))
  }

  lemma LowerIdempotent(s: string)
    ensures Lower(Lower(s)) == Lower(s)
  {
    assert forall k | 0 <= k < |s| :: LowerChar(Lower(s)[k]) == Lower(s)[k];
  }

  /** A string without upper-case letters is its own lower-case form. */
  lemma LowerNoUpper(s: string)
    requires forall k | 0 <= k < |s| :: !IsUpper(s[k])
    ensures Lower(s) == s
  {
  }

  // ---------------------------------------------------------------------
  // Prefixes and occurrences
  // ---------------------------------------------------------------------

  predicate StartsWith(s: string, p: string)
  {
    |p| <= |s| && s[..|p|] == p
  }

  predicate OccursAt(s: string, pat: string, i: nat)
  {
    i + |pat| <= |s| && s[i..i + |pat|] == pat
  }

  predicate Occurs(s: string, pat: string)
  {
    exists i: nat | i <= |s| :: OccursAt(s, pat, i)
  }

  /** No character of `a` occurs in `b`. */
  predicate Disjoint(a: string, b: string)
  {
    forall k | 0 <= k < |a| :: a[k] !in b
  }

  // ---------------------------------------------------------------------
  // `str::replace`: leftmost, non-overlapping replacement of every
  // occurrence of a non-empty pattern
  // ---------------------------------------------------------------------

  function ReplaceAll(s: string, pat: string, rep: string): string
    requires |pat| > 0
    decreases |s|
  {
    if |s| < |pat| then s
    else if s[..|pat|] == pat then rep + ReplaceAll(s[|pat|..], pat, rep)
    else [s[0]] + ReplaceAll(s[1..], pat, rep)
  }

  /** A string without the pattern comes back unchanged. */
  lemma {:induction false} ReplaceAllNoMatch(s: string, pat: string, rep: string)
    requires |pat| > 0
    requires !Occurs(s, pat)
    ensures ReplaceAll(s, pat, rep) == s
    decreases |s|
  {
    if |s| >= |pat| {
      assert !OccursAt(s, pat, 0);
      forall i: nat | OccursAt(s[1..], pat, i)
        ensures false
      {
        assert s[i + 1..i + 1 + |pat|] == s[1..][i..i + |pat|];
        assert OccursAt(s, pat, i + 1);
      }
      ReplaceAllNoMatch(s[1..], pat, rep);
    }
  }

  /** A prefix of the result made of characters that `rep` does not contain
      was copied from the input unchanged. */
  lemma {:induction false} ReplacedPrefix(t: string, pat: string, rep: string, k: nat)
    requires |pat| > 0 && |rep| > 0
    requires k <= |ReplaceAll(t, pat, rep)|
    requires forall m | 0 <= m < k :: ReplaceAll(t, pat, rep)[m] !in rep
    ensures k <= |t| && t[..k] == ReplaceAll(t, pat, rep)[..k]
    decreases |t|
  {
    var r := ReplaceAll(t, pat, rep);
    if |t| < |pat| {
    } else if t[..|pat|] == pat {
      assert r[0] == rep[0];
    } else if k > 0 {
      var r' := ReplaceAll(t[1..], pat, rep);
      assert r == [t[0]] + r';
      forall m | 0 <= m < k - 1
        ensures r'[m] !in rep
      {
        assert r'[m] == r[m + 1];
      }
      ReplacedPrefix(t[1..], pat, rep, k - 1);
      assert t[..k] == [t[0]] + t[1..][..k - 1];
      assert r[..k] == [t[0]] + r'[..k - 1];
    }
  }

  /** When the replacement shares no character with the pattern, no
      occurrence of the pattern is left. */
  lemma {:induction false} ReplaceAllRemoves(s: string, pat: string, rep: string)
    requires |pat| > 0 && |rep| > 0
    requires Disjoint(rep, pat)
    ensures !Occurs(ReplaceAll(s, pat, rep), pat)
    decreases |s|
  {
    var r := ReplaceAll(s, pat, rep);
    if |s| < |pat| {
      forall i: nat | OccursAt(r, pat, i)
        ensures false
      {
      }
    } else if s[..|pat|] == pat {
      var r' := ReplaceAll(s[|pat|..], pat, rep);
      assert r == rep + r';
      ReplaceAllRemoves(s[|pat|..], pat, rep);
      forall i: nat | OccursAt(r, pat, i)
        ensures false
      {
        if i >= |rep| {
          assert r'[i - |rep|..i - |rep| + |pat|] == r[i..i + |pat|];
          assert OccursAt(r', pat, i - |rep|);
        }
      }
    } else {
      var t := s[1..];
      var r' := ReplaceAll(t, pat, rep);
      assert r == [s[0]] + r';
      ReplaceAllRemoves(t, pat, rep);
      forall i: nat | OccursAt(r, pat, i)
        ensures false
      {
        if i == 0 {
          FactorAtFront(s, pat, rep, pat);
        } else {
          assert r'[i - 1..i - 1 + |pat|] == r[i..i + |pat|];
          assert OccursAt(r', pat, i - 1);
        }
      }
    }
  }

  /** An occurrence found past the first `n` characters is an occurrence. */
  lemma ShiftOccurs(t: string, q: string, n: nat, m: nat)
    requires n <= |t|
    requires OccursAt(t[n..], q, m)
    ensures OccursAt(t, q, n + m)
  {
    assert t[n + m..n + m + |q|] == t[n..][m..m + |q|];
  }

  /** Past a match, an occurrence of `q` in the result lies in the part
      produced from the rest of the input. */
  lemma FactorAfterMatch(t: string, pat: string, rep: string, q: string, i: nat)
    requires |pat| > 0 && |q| > 0
    requires Disjoint(rep, q)
    requires |t| >= |pat| && t[..|pat|] == pat
    requires OccursAt(ReplaceAll(t, pat, rep), q, i)
    ensures i >= |rep| && OccursAt(ReplaceAll(t[|pat|..], pat, rep), q, i - |rep|)
  {
    var r := ReplaceAll(t, pat, rep);
    var r' := ReplaceAll(t[|pat|..], pat, rep);
    assert r == rep + r';
    assert r[i] == q[0];
    assert r'[i - |rep|..i - |rep| + |q|] == r[i..i + |q|];
  }

  /** An occurrence of `q` at the very front of the result, where the input
      does not start with the pattern, is an occurrence at its front. */
  lemma FactorAtFront(t: string, pat: string, rep: string, q: string)
    requires |pat| > 0 && |rep| > 0 && |q| > 0
    requires Disjoint(rep, q)
    requires |t| >= |pat| && t[..|pat|] != pat
    requires OccursAt(ReplaceAll(t, pat, rep), q, 0)
    ensures OccursAt(t, q, 0)
  {
    var t' := t[1..];
    var r' := ReplaceAll(t', pat, rep);
    assert ReplaceAll(t, pat, rep) == [t[0]] + r';
    var tail := q[1..];
    assert OccursAt(r', tail, 0) by {
      assert r'[..|tail|] == ReplaceAll(t, pat, rep)[1..|q|];
    }
    assert Disjoint(rep, tail);
    CopiedFactor(t', pat, rep, tail);
    forall m | 0 <= m < |q|
      ensures t[m] == q[m]
    {
      if m == 0 {
        assert ReplaceAll(t, pat, rep)[0] == q[0];
      } else {
        assert t'[..|tail|][m - 1] == tail[m - 1];
      }
    }
    assert t[..|q|] == q;
  }

  /** A factor at the front of the result whose characters `rep` does not
      contain was copied from the front of the input. */
  lemma CopiedFactor(t: string, pat: string, rep: string, q: string)
    requires |pat| > 0 && |rep| > 0
    requires Disjoint(rep, q)
    requires OccursAt(ReplaceAll(t, pat, rep), q, 0)
    ensures OccursAt(t, q, 0)
  {
    var r := ReplaceAll(t, pat, rep);
    forall m | 0 <= m < |q|
      ensures r[m] !in rep
    {
      assert r[m] == q[m];
    }
    ReplacedPrefix(t, pat, rep, |q|);
  }

  /** An occurrence in the result of a string `q` that shares no character
      with the replacement was already an occurrence in the input. */
  lemma {:induction false} ReplacedFactor(t: string, pat: string, rep: string, q: string, i: nat)
    requires |pat| > 0 && |rep| > 0
    requires Disjoint(rep, q)
    requires OccursAt(ReplaceAll(t, pat, rep), q, i)
    ensures Occurs(t, q)
    decreases |t|
  {
    if |q| == 0 {
      assert OccursAt(t, q, 0);
    } else if |t| < |pat| {
      assert OccursAt(t, q, i);
    } else if t[..|pat|] == pat {
      FactorAfterMatch(t, pat, rep, q, i);
      ReplacedFactor(t[|pat|..], pat, rep, q, i - |rep|);
      var m: nat :| OccursAt(t[|pat|..], q, m);
      ShiftOccurs(t, q, |pat|, m);
    } else if i == 0 {
      FactorAtFront(t, pat, rep, q);
    } else {
      var r := ReplaceAll(t, pat, rep);
      var r' := ReplaceAll(t[1..], pat, rep);
      assert r == [t[0]] + r';
      assert r'[i - 1..i - 1 + |q|] == r[i..i + |q|];
      ReplacedFactor(t[1..], pat, rep, q, i - 1);
      var m: nat :| OccursAt(t[1..], q, m);
      ShiftOccurs(t, q, 1, m);
    }
  }

  /** Replacing one pattern does not create occurrences of another string
      that shares no character with the replacement. */
  lemma ReplaceAllKeepsAbsent(s: string, pat: string, rep: string, q: string)
    requires |pat| > 0 && |rep| > 0
    requires Disjoint(rep, q)
    requires !Occurs(s, q)
    ensures !Occurs(ReplaceAll(s, pat, rep), q)
  {
    forall i: nat | OccursAt(ReplaceAll(s, pat, rep), q, i)
      ensures false
    {
      ReplacedFactor(s, pat, rep, q, i);
    }
  }

  // ---------------------------------------------------------------------
  // `str::trim`: strip `char::is_whitespace` characters at both ends
  // ---------------------------------------------------------------------

  /** The Unicode White_Space property, which `char::is_whitespace` tests. */
  predicate IsWhitespace(c: char)
  {
    var u := c as int;
    (0x09 <= u <= 0x0D) || u == 0x20 || u == 0x85 || u == 0xA0 || u == 0x1680
    || (0x2000 <= u <= 0x200A) || u == 0x2028 || u == 0x2029 || u == 0x202F
    || u == 0x205F || u == 0x3000
  }

  function TrimStart(s: string): (r: string)
    ensures |r| <= |s| && r == s[|s| - |r|..]
    ensures forall k | 0 <= k < |s| - |r| :: IsWhitespace(s[k])
    ensures r != [] ==> !IsWhitespace(r[0])
  {
    if s != [] && IsWhitespace(s[0]) then
      var t := TrimStart(s[1..]);
      assert s[1..][|s| - 1 - |t|..] == s[|s| - |t|..];
      assert forall k | 1 <= k < |s| - |t| :: s[k] == s[1..][k - 1];
      t
    else s
  }

  function TrimEnd(s: string): (r: string)
    ensures |r| <= |s| && r == s[..|r|]
    ensures forall k | |r| <= k < |s| :: IsWhitespace(s[k])
    ensures r != [] ==> !IsWhitespace(r[|r| - 1])
  {
    if s != [] && IsWhitespace(s[|s| - 1]) then
      var t := TrimEnd(s[..|s| - 1]);
      assert s[..|s| - 1][..|t|] == s[..|t|];
      assert forall k | |t| <= k < |s| - 1 :: s[k] == s[..|s| - 1][k];
      t
    else s
  }

  /** `r` is the factor of `s` at `lo`, with only whitespace around it. */
  predicate CutFrom(s: string, lo: nat, r: string)
  {
    && lo + |r| <= |s|
    && r == s[lo..lo + |r|]
    && (forall k | 0 <= k < lo :: IsWhitespace(s[k]))
    && (forall k | lo + |r| <= k < |s| :: IsWhitespace(s[k]))
  }

  /** `str::trim`: the longest factor of `s` that neither starts nor ends
      with whitespace, everything cut off being whitespace. */
  function Trim(s: string): (r: string)
    ensures exists lo: nat :: CutFrom(s, lo, r)
    ensures r != [] ==> !IsWhitespace(r[0]) && !IsWhitespace(r[|r| - 1])
  {
    var a := TrimStart(s);
    var r := TrimEnd(a);
    var lo := |s| - |a|;
    assert a == s[lo..] && r == a[..|r|];
    assert r == s[lo..lo + |r|];
    forall k | lo + |r| <= k < |s|
      ensures IsWhitespace(s[k])
    {
      assert s[k] == a[k - lo];
    }
    assert CutFrom(s, lo, r);
    r
  }

  /** A string that neither starts nor ends with whitespace is already
      trimmed. */
  lemma TrimNoOp(s: string)
    requires s != [] ==> !IsWhitespace(s[0]) && !IsWhitespace(s[|s| - 1])
    ensures Trim(s) == s
  {
  }

  /** Trimming keeps a string free of upper-case letters. */
  lemma TrimNoUpper(s: string)
    requires forall k | 0 <= k < |s| :: !IsUpper(s[k])
    ensures forall k | 0 <= k < |Trim(s)| :: !IsUpper(Trim(s)[k])
  {
    var r := Trim(s);
    var lo: nat :| CutFrom(s, lo, r);
    forall k | 0 <= k < |r|
      ensures !IsUpper(r[k])
    {
      assert r[k] == s[lo + k];
    }
  }
}
