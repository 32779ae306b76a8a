/**
 * String helpers used by every store: whitespace trimming (Go's
 * strings.TrimSpace), ASCII case mapping (strings.ToLower / ToUpper),
 * byte-wise string order (strings.Compare, the < operator on strings) and
 * decimal rendering of naturals (the %d verb of fmt.Sprintf).
 */
module Text {

  // ---------------------------------------------------------------------------
  // Whitespace trimming
  // ---------------------------------------------------------------------------

  /** The characters unicode.IsSpace accepts (Unicode White_Space). */
  predicate IsSpace(c: char) {
    c == ' ' || c == '\t' || c == '\n' || c == '\U{000B}' || c == '\U{000C}' || c == '\r'
    || c == '\U{0085}' || c == '\U{00A0}' || c == '\U{1680}'
    || ('\U{2000}' <= c <= '\U{200A}')
    || c == '\U{2028}' || c == '\U{2029}' || c == '\U{202F}' || c == '\U{205F}' || c == '\U{3000}'
  }

  predicate AllSpace(s: string) {
    forall i :: 0 <= i < |s| ==> IsSpace(s[i])
  }

  /** No leading and no trailing white space. */
  predicate Trimmed(s: string) {
    s == [] || (!IsSpace(s[0]) && !IsSpace(s[|s| - 1]))
  }

  /** Drops the leading white space (TrimLeftSuffix: what remains is a suffix of `s`). */
  function TrimLeft(s: string): (r: string)
    ensures |r| <= |s|
    ensures r == [] || !IsSpace(r[0])
  {
    if s != [] && IsSpace(s[0]) then TrimLeft(s[1..]) else s
  }

  /** Drops the trailing white space (TrimRightPrefix: what remains is a prefix of `s`). */
  function TrimRight(s: string): (r: string)
    ensures |r| <= |s|
    ensures r == [] || !IsSpace(r[|r| - 1])
  {
    if s != [] && IsSpace(s[|s| - 1]) then TrimRight(s[..|s| - 1]) else s
  }

  /** TrimLeft keeps a suffix of its input and drops only white space before it. */
  lemma {:induction false} TrimLeftSuffix(s: string)
    ensures var r := TrimLeft(s);
            r == s[|s| - |r|..] && AllSpace(s[..|s| - |r|])
  {
    if s != [] && IsSpace(s[0]) {
      var t := s[1..];
      TrimLeftSuffix(t);
      var r := TrimLeft(t);
      assert r == s[|s| - |r|..];
      forall k | 0 <= k < |s| - |r| ensures IsSpace(s[k]) {
        if k > 0 {
          assert s[k] == t[..|t| - |r|][k - 1];
        }
      }
    }
  }

  /** TrimRight keeps a prefix of its input and drops only white space after it. */
  lemma {:induction false} TrimRightPrefix(s: string)
    ensures var r := TrimRight(s);
            r == s[..|r|] && AllSpace(s[|r|..])
  {
    if s != [] && IsSpace(s[|s| - 1]) {
      var t := s[..|s| - 1];
      TrimRightPrefix(t);
      var r := TrimRight(t);
      assert r == s[..|r|];
      forall k | 0 <= k < |s| - |r| ensures IsSpace(s[|r|..][k]) {
        if k < |t| - |r| {
          assert s[|r|..][k] == t[|r|..][k];
        }
      }
    }
  }

  /** strings.TrimSpace: the slice of `s` left after removing white space on both ends. */
  function TrimSpace(s: string): (r: string)
    ensures Trimmed(r) && |r| <= |s|
    ensures Trimmed(s) ==> r == s
  {
    TrimRightPrefix(TrimLeft(s));
    TrimRight(TrimLeft(s))
  }

  /** What TrimSpace keeps is a slice of its input with only white space around it. */
  lemma TrimSpaceSliceOf(s: string)
    ensures var r := TrimSpace(s);
            exists i :: 0 <= i <= |s| - |r| && r == s[i..i + |r|]
                     && AllSpace(s[..i]) && AllSpace(s[i + |r|..])
  {
    TrimLeftSuffix(s);
    TrimRightPrefix(TrimLeft(s));
    TrimSpaceSlice(s, TrimLeft(s), TrimRight(TrimLeft(s)));
  }

  lemma TrimSpaceSlice(s: string, l: string, r: string)
    requires |l| <= |s| && l == s[|s| - |l|..] && AllSpace(s[..|s| - |l|])
    requires |r| <= |l| && r == l[..|r|] && AllSpace(l[|r|..])
    ensures exists i :: 0 <= i <= |s| - |r| && r == s[i..i + |r|]
                     && AllSpace(s[..i]) && AllSpace(s[i + |r|..])
  {
    var i := |s| - |l|;
    assert r == s[i..i + |r|];
    assert s[i + |r|..] == l[|r|..];
  }

  lemma {:induction false} TrimLeftFixed(s: string)
    requires s == [] || !IsSpace(s[0])
    ensures TrimLeft(s) == s
  {
  }

  lemma {:induction false} TrimRightFixed(s: string)
    requires s == [] || !IsSpace(s[|s| - 1])
    ensures TrimRight(s) == s
  {
  }

  /** A string without surrounding white space is left alone, so trimming is idempotent. */
  lemma TrimSpaceIdempotent(s: string)
    ensures Trimmed(s) ==> TrimSpace(s) == s
    ensures TrimSpace(TrimSpace(s)) == TrimSpace(s)
  {
    forall t: string | Trimmed(t) ensures TrimSpace(t) == t {
      TrimLeftFixed(t);
      TrimRightFixed(t);
    }
  }

  lemma AllSpaceSlice(s: string, i: nat, j: nat)
    requires AllSpace(s) && i <= j <= |s|
    ensures AllSpace(s[i..j])
  {
    forall k | 0 <= k < j - i ensures IsSpace(s[i..j][k]) {
      assert s[i..j][k] == s[i + k];
    }
  }

  /** Trimming a string made only of white space leaves nothing. */
  lemma TrimAllSpace(s: string)
    requires AllSpace(s)
    ensures TrimSpace(s) == []
  {
    var r := TrimSpace(s);
    TrimSpaceSliceOf(s);
    var i :| 0 <= i <= |s| - |r| && r == s[i..i + |r|];
    AllSpaceSlice(s, i, i + |r|);
  }

  // ---------------------------------------------------------------------------
  // ASCII case mapping
  // ---------------------------------------------------------------------------

  function LowerChar(c: char): char {
    if 'A' <= c <= 'Z' then (c as int + 32) as char else c
  }

  function UpperChar(c: char): char {
    if 'a' <= c <= 'z' then (c as int - 32) as char else c
  }

  /** strings.ToLower restricted to ASCII letters. */
  function ToLower(s: string): (r: string)
    ensures |r| == |s|
    ensures forall i :: 0 <= i < |s| ==> r[i] == LowerChar(s[i])
  {
    seq(|s|, i requires 0 <= i < |s| => LowerChar(s[i]))
  }

  /** strings.ToUpper restricted to ASCII letters. */
  function ToUpper(s: string): (r: string)
    ensures |r| == |s|
    ensures forall i :: 0 <= i < |s| ==> r[i] == UpperChar(s[i])
  {
    seq(|s|, i requires 0 <= i < |s| => UpperChar(s[i]))
  }

  /** Case mapping only touches letters, so it never creates or removes white space. */
  lemma CaseMappingKeepsSpace(c: char)
    ensures IsSpace(LowerChar(c)) <==> IsSpace(c)
    ensures IsSpace(UpperChar(c)) <==> IsSpace(c)
  {
  }

  /** A field of nothing but white space is still blank after case mapping and trimming. */
  lemma CaseMappedBlank(s: string)
    ensures AllSpace(s) ==> TrimSpace(ToLower(s)) == [] && TrimSpace(ToUpper(s)) == []
  {
    if AllSpace(s) {
      forall i | 0 <= i < |s| ensures IsSpace(ToLower(s)[i]) && IsSpace(ToUpper(s)[i]) {
        CaseMappingKeepsSpace(s[i]);
      }
      TrimAllSpace(ToLower(s));
      TrimAllSpace(ToUpper(s));
    }
  }

  // ---------------------------------------------------------------------------
  // Byte-wise string order
  // ---------------------------------------------------------------------------

  /**
   * `a < b` on Go strings (and strings.Compare(a, b) < 0): lexicographic by
   * code unit, a proper prefix sorts first.
   */
  predicate Less(a: string, b: string) {
    if b == [] then false
    else if a == [] then true
    else if a[0] != b[0] then a[0] < b[0]
    else Less(a[1..], b[1..])
  }

  /** `a <= b`, the order sorted outputs must respect. */
  predicate LessEq(a: string, b: string) {
    !Less(b, a)
  }

  lemma {:induction false} LessIrreflexive(a: string)
    ensures !Less(a, a)
  {
    if a != [] {
      LessIrreflexive(a[1..]);
    }
  }

  lemma {:induction false} LessAsymmetric(a: string, b: string)
    ensures !(Less(a, b) && Less(b, a))
  {
    if a != [] && b != [] && a[0] == b[0] {
      LessAsymmetric(a[1..], b[1..]);
    }
  }

  lemma {:induction false} LessTransitive(a: string, b: string, c: string)
    requires Less(a, b) && Less(b, c)
    ensures Less(a, c)
  {
    if a != [] && a[0] == b[0] && b[0] == c[0] {
      LessTransitive(a[1..], b[1..], c[1..]);
    }
  }

  lemma {:induction false} LessTrichotomous(a: string, b: string)
    ensures a == b || Less(a, b) || Less(b, a)
  {
    if a != [] && b != [] && a[0] == b[0] {
      LessTrichotomous(a[1..], b[1..]);
      if a[1..] == b[1..] {
        assert a == [a[0]] + a[1..] && b == [b[0]] + b[1..];
      }
    }
  }

  /** `<=` on strings is a total order. */
  lemma LessEqTotalOrder(a: string, b: string, c: string)
    ensures LessEq(a, a)
    ensures LessEq(a, b) || LessEq(b, a)
    ensures LessEq(a, b) && LessEq(b, a) ==> a == b
    ensures LessEq(a, b) && LessEq(b, c) ==> LessEq(a, c)
  {
    LessIrreflexive(a);
    LessAsymmetric(a, b);
    LessTrichotomous(a, b);
    LessTrichotomous(a, c);
    LessTrichotomous(b, c);
    if LessEq(a, b) && LessEq(b, c) && Less(c, a) {
      if a == b {
      } else if b == c {
      } else {
        LessTransitive(a, b, c);
        LessAsymmetric(a, c);
      }
    }
  }

  /** The order the namespaced stores sort by: first component, then second. */
  predicate LessPair(a1: string, a2: string, b1: string, b2: string) {
    if a1 == b1 then Less(a2, b2) else Less(a1, b1)
  }

  predicate LessEqPair(a1: string, a2: string, b1: string, b2: string) {
    !LessPair(b1, b2, a1, a2)
  }

  /** The pair order is total and transitive, so it can drive a sort. */
  lemma LessEqPairTotalOrder(a1: string, a2: string, b1: string, b2: string, c1: string, c2: string)
    ensures LessEqPair(a1, a2, b1, b2) || LessEqPair(b1, b2, a1, a2)
    ensures LessEqPair(a1, a2, b1, b2) && LessEqPair(b1, b2, c1, c2) ==> LessEqPair(a1, a2, c1, c2)
  {
    LessEqTotalOrder(a1, b1, c1);
    LessEqTotalOrder(b1, c1, a1);
    LessEqTotalOrder(c1, a1, b1);
    LessEqTotalOrder(a2, b2, c2);
    LessEqTotalOrder(b2, c2, a2);
    LessEqTotalOrder(c2, a2, b2);
    LessIrreflexive(a2);
  }

  // ---------------------------------------------------------------------------
  // Decimal rendering (the %d verb) and its inverse
  // ---------------------------------------------------------------------------

  predicate IsDigit(c: char) {
    '0' <= c <= '9'
  }

  predicate AllDigits(s: string) {
    forall i :: 0 <= i < |s| ==> IsDigit(s[i])
  }

  function DigitChar(d: nat): char
    requires d < 10
  {
    ('0' as int + d) as char
  }

  /** Decimal value of a digit string (0 for the empty string). */
  function DigitsValue(s: string): nat
    requires AllDigits(s)
  {
    if s == [] then 0
    else DigitsValue(s[..|s| - 1]) * 10 + (s[|s| - 1] as int - '0' as int)
  }

  /** fmt.Sprintf("%d", n) for a non-negative n: decimal digits, no leading zero. */
  function NatToString(n: nat): (r: string)
    ensures r != [] && AllDigits(r)
  {
    if n < 10 then [DigitChar(n)] else NatToString(n / 10) + [DigitChar(n % 10)]
  }

  /** Reading the digits back gives the number: rendering loses nothing. */
  lemma {:induction false} NatToStringRoundTrip(n: nat)
    ensures DigitsValue(NatToString(n)) == n
  {
    if n >= 10 {
      var s := NatToString(n);
      NatToStringRoundTrip(n / 10);
      assert s[..|s| - 1] == NatToString(n / 10);
    }
  }

  /** Length of the longest all-digit prefix. */
  function DigitPrefixLen(s: string): (k: nat)
    ensures k <= |s| && AllDigits(s[..k])
    ensures k < |s| ==> !IsDigit(s[k])
  {
    if s != [] && IsDigit(s[0]) then
      var k := 1 + DigitPrefixLen(s[1..]);
      assert s[..k] == [s[0]] + s[1..][..k - 1];
      k
    else 0
  }

  /** A digit run followed by a non-digit splits exactly at the boundary. */
  lemma {:induction false} DigitPrefixLenOf(d: string, rest: string)
    requires AllDigits(d)
    requires rest == [] || !IsDigit(rest[0])
    ensures DigitPrefixLen(d + rest) == |d|
  {
    if d != [] {
      assert (d + rest)[1..] == d[1..] + rest;
      DigitPrefixLenOf(d[1..], rest);
    }
  }
}
