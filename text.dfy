/** Python string operations the program relies on, restricted to what it
    uses: `in` on strings, `lower`/`upper` (ASCII letters), `strip` and
    `split()` (ASCII whitespace), `split(c)` on one character, `replace` of
    one character, and decimal rendering of integers. */
module Text {
  import opened Base

  /** Characters Python's `str.isspace` accepts among the ASCII range. */
  predicate IsSpace(c: char) {
    c == ' ' || c == '\t' || c == '\n' || c == '\r' || c == '\U{0B}' || c == '\U{0C}'
    || c == '\U{1C}' || c == '\U{1D}' || c == '\U{1E}' || c == '\U{1F}'
  }

  // ---------------------------------------------------------------------------
  // Substring search (`sub in s`)
  // ---------------------------------------------------------------------------

  predicate OccursAt(s: string, sub: string, i: nat) {
    i + |sub| <= |s| && s[i..i + |sub|] == sub
  }

  predicate ContainsFrom(s: string, sub: string, i: nat)
    decreases |s| - i
  {
    i + |sub| <= |s| && (s[i..i + |sub|] == sub || ContainsFrom(s, sub, i + 1))
  }

  /** Python's `sub in s`. */
  predicate Contains(s: string, sub: string) {
    ContainsFrom(s, sub, 0)
  }

  lemma {:induction false} ContainsFromIff(s: string, sub: string, i: nat)
    ensures ContainsFrom(s, sub, i) <==> exists j :: i <= j && OccursAt(s, sub, j)
    decreases |s| - i
  {
    if i + |sub| <= |s| {
      ContainsFromIff(s, sub, i + 1);
      if !ContainsFrom(s, sub, i) {
        forall j | i <= j ensures !OccursAt(s, sub, j) {
          if j == i {
          } else {
            assert i + 1 <= j;
          }
        }
      } else if s[i..i + |sub|] == sub {
        assert OccursAt(s, sub, i);
      }
    } else {
      forall j | i <= j ensures !OccursAt(s, sub, j) { }
    }
  }

  /** `Contains` agrees with the textbook definition of a substring occurrence. */
  lemma ContainsIff(s: string, sub: string)
    ensures Contains(s, sub) <==> exists j :: OccursAt(s, sub, j)
  {
    ContainsFromIff(s, sub, 0);
  }

  lemma ContainsWitness(s: string, sub: string, j: nat)
    requires OccursAt(s, sub, j)
    ensures Contains(s, sub)
  {
    ContainsIff(s, sub);
  }

  /** A string that starts with `sub` contains it. */
  lemma ContainsPrefix(s: string, sub: string)
    requires |sub| <= |s| && s[..|sub|] == sub
    ensures Contains(s, sub)
  {
    assert OccursAt(s, sub, 0);
    ContainsWitness(s, sub, 0);
  }

  /** A string containing `sub` is at least as long as `sub`. */
  lemma ContainsLength(s: string, sub: string)
    requires Contains(s, sub)
    ensures |sub| <= |s|
  {
    ContainsIff(s, sub);
  }

  /** A string that lacks one of the characters of `sub` does not contain `sub`. */
  lemma NotContainsMissing(s: string, sub: string, k: nat)
    requires k < |sub| && sub[k] !in s
    ensures !Contains(s, sub)
  {
    ContainsIff(s, sub);
    forall j: nat | j + |sub| <= |s| ensures !OccursAt(s, sub, j) {
      assert s[j + k] in s;
      assert s[j..j + |sub|][k] == s[j + k];
    }
  }

  /** A string shorter than `sub` does not contain it. */
  lemma NotContainsShort(s: string, sub: string)
    requires |s| < |sub|
    ensures !Contains(s, sub)
  {
    if Contains(s, sub) {
      ContainsLength(s, sub);
    }
  }

  /** An occurrence in `a + [c] + b` lies within `a` or within `b` when `c`
      is not a character of `sub`. */
  lemma NotContainsAcross(a: string, c: char, b: string, sub: string)
    requires c !in sub && !Contains(a, sub) && !Contains(b, sub)
    ensures !Contains(a + [c] + b, sub)
  {
    var s := a + [c] + b;
    ContainsIff(s, sub);
    ContainsIff(a, sub);
    ContainsIff(b, sub);
    forall j: nat | j + |sub| <= |s| ensures !OccursAt(s, sub, j) {
      if j + |sub| <= |a| {
        assert s[j..j + |sub|] == a[j..j + |sub|];
        assert !OccursAt(a, sub, j);
      } else if j > |a| {
        assert s[j..j + |sub|] == b[j - |a| - 1..j - |a| - 1 + |sub|];
        assert !OccursAt(b, sub, j - |a| - 1);
      } else {
        assert s[j..j + |sub|][|a| - j] == c;
      }
    }
  }

  // ---------------------------------------------------------------------------
  // Case mapping (ASCII letters)
  // ---------------------------------------------------------------------------

  function LowerChar(c: char): char {
    if 'A' <= c <= 'Z' then (c as int + 32) as char else c
  }

  function UpperChar(c: char): char {
    if 'a' <= c <= 'z' then (c as int - 32) as char else c
  }

  /** `s.lower()` */
  function Lower(s: string): (r: string)
    ensures |r| == |s|
    ensures forall i :: 0 <= i < |s| ==> r[i] == LowerChar(s[i])
  {
    seq(|s|, i requires 0 <= i < |s| => LowerChar(s[i]))
  }

  lemma LowerAppend(a: string, b: string)
    ensures Lower(a + b) == Lower(a) + Lower(b)
  {
    assert forall i :: 0 <= i < |a + b| ==> Lower(a + b)[i] == (Lower(a) + Lower(b))[i];
  }

  /** A lower-case letter that `s` holds in neither case is not in `Lower(s)`. */
  lemma LowerLacks(s: string, c: char)
    requires 'a' <= c <= 'z' && c !in s && UpperChar(c) !in s
    ensures c !in Lower(s)
  {
    forall i | 0 <= i < |s| ensures Lower(s)[i] != c {
      assert s[i] in s;
    }
  }

  /** A text that holds a letter of `sub` in neither case does not contain
      `sub` once lower-cased. */
  lemma LacksInLower(s: string, sub: string, k: nat, c: char, u: char)
    requires k < |sub| && sub[k] == c && 'a' <= c <= 'z' && u == UpperChar(c)
    requires c !in s && u !in s
    ensures !Contains(Lower(s), sub)
  {
    LowerLacks(s, c);
    NotContainsMissing(Lower(s), sub, k);
  }

  /** `sub in (p + rest).lower()` when `p` lowers to `sub`. */
  lemma ContainsLowerPrefix(p: string, rest: string, sub: string)
    requires |p| == |sub| && forall k :: 0 <= k < |p| ==> LowerChar(p[k]) == sub[k]
    ensures Contains(Lower(p + rest), sub)
  {
    assert Lower(p + rest)[0..|sub|] == sub;
    ContainsWitness(Lower(p + rest), sub, 0);
  }

  /** `sub in (pre + p + rest).lower()` when `p` lowers to `sub`. */
  lemma ContainsLowerWithin(pre: string, p: string, rest: string, sub: string)
    requires |p| == |sub| && forall k :: 0 <= k < |p| ==> LowerChar(p[k]) == sub[k]
    ensures Contains(Lower(pre + p + rest), sub)
  {
    var s := pre + p + rest;
    assert Lower(s)[|pre|..|pre| + |sub|] == sub;
    ContainsWitness(Lower(s), sub, |pre|);
  }

  /** Splitting a lower-cased text at a character that lowers to none of `sub`. */
  lemma NotContainsLowerAcross(a: string, c: char, b: string, sub: string)
    requires LowerChar(c) !in sub && !Contains(Lower(a), sub) && !Contains(Lower(b), sub)
    ensures !Contains(Lower(a + [c] + b), sub)
  {
    LowerAppend(a + [c], b);
    LowerAppend(a, [c]);
    assert Lower([c]) == [LowerChar(c)];
    NotContainsAcross(Lower(a), LowerChar(c), Lower(b), sub);
  }

  /** `s.upper()` */
  function Upper(s: string): (r: string)
    ensures |r| == |s|
    ensures forall i :: 0 <= i < |s| ==> r[i] == UpperChar(s[i])
  {
    seq(|s|, i requires 0 <= i < |s| => UpperChar(s[i]))
  }

  // ---------------------------------------------------------------------------
  // Replacing one character (`s.replace(a, b)` with one-character a and b)
  // ---------------------------------------------------------------------------

  function ReplaceChar(s: string, a: char, b: char): (r: string)
    ensures |r| == |s|
    ensures forall i :: 0 <= i < |s| ==> r[i] == (if s[i] == a then b else s[i])
  {
    if s == [] then [] else [if s[0] == a then b else s[0]] + ReplaceChar(s[1..], a, b)
  }

  // ---------------------------------------------------------------------------
  // Whitespace: strip() and split()
  // ---------------------------------------------------------------------------

  function StripLeft(s: string): (r: string)
    ensures |r| <= |s| && r == s[|s| - |r|..]
    ensures r == [] || !IsSpace(r[0])
  {
    if s != [] && IsSpace(s[0]) then StripLeft(s[1..]) else s
  }

  function StripRight(s: string): (r: string)
    ensures |r| <= |s| && r == s[..|r|]
    ensures r == [] || !IsSpace(r[|r| - 1])
  {
    if s != [] && IsSpace(s[|s| - 1]) then StripRight(s[..|s| - 1]) else s
  }

  /** Stripping on the right keeps every character up to the last one that is not whitespace. */
  lemma {:induction false} StripRightKeeps(s: string, i: nat)
    requires i < |s| && !IsSpace(s[i])
    ensures i < |StripRight(s)|
    decreases |s|
  {
    if IsSpace(s[|s| - 1]) {
      assert i < |s| - 1;
      assert s[..|s| - 1][i] == s[i];
      StripRightKeeps(s[..|s| - 1], i);
    }
  }

  /** Trailing whitespace is stripped whatever precedes it. */
  lemma {:induction false} StripRightSpaces(x: string, sp: string)
    requires AllSpace(sp)
    ensures StripRight(x + sp) == StripRight(x)
    decreases |sp|
  {
    if sp == [] {
      assert x + sp == x;
    } else {
      var s := x + sp;
      assert IsSpace(s[|s| - 1]);
      assert s[..|s| - 1] == x + sp[..|sp| - 1];
      StripRightSpaces(x, sp[..|sp| - 1]);
    }
  }

  /** Stripping `h + n` on the right only touches `n` when `n` is not all whitespace. */
  lemma {:induction false} StripRightConcat(h: string, n: string)
    requires !AllSpace(n)
    ensures StripRight(h + n) == h + StripRight(n)
    decreases |n|
  {
    var s := h + n;
    assert s[|s| - 1] == n[|n| - 1];
    if IsSpace(n[|n| - 1]) {
      var n' := n[..|n| - 1];
      assert !AllSpace(n') by {
        var i :| 0 <= i < |n| && !IsSpace(n[i]);
        assert n'[i] == n[i];
      }
      assert s[..|s| - 1] == h + n';
      StripRightConcat(h, n');
    }
  }

  /** `s.strip()` */
  function Strip(s: string): string {
    StripRight(StripLeft(s))
  }

  /** Text that neither starts nor ends with whitespace is stripped to itself. */
  lemma StripTrimmed(s: string)
    requires s != [] && !IsSpace(s[0]) && !IsSpace(s[|s| - 1])
    ensures Strip(s) == s
  {
  }

  /** Length of the leading run of non-whitespace characters. */
  function TokenLength(s: string): (n: nat)
    ensures n <= |s|
    ensures forall i :: 0 <= i < n ==> !IsSpace(s[i])
    ensures n == |s| || IsSpace(s[n])
  {
    if s == [] || IsSpace(s[0]) then 0 else 1 + TokenLength(s[1..])
  }

  /** `s.split()`: the maximal runs of non-whitespace characters. */
  function Words(s: string): (ws: seq<string>)
    decreases |s|
  {
    if s == [] then []
    else if IsSpace(s[0]) then Words(s[1..])
    else
      var n := TokenLength(s);
      [s[..n]] + Words(s[n..])
  }

  predicate AllSpace(s: string) {
    forall i :: 0 <= i < |s| ==> IsSpace(s[i])
  }

  /** `s.split()` is empty exactly when `s` holds nothing but whitespace. */
  lemma {:induction false} WordsEmptyIff(s: string)
    ensures Words(s) == [] <==> AllSpace(s)
    decreases |s|
  {
    if s == [] {
    } else if IsSpace(s[0]) {
      WordsEmptyIff(s[1..]);
      assert AllSpace(s) <==> AllSpace(s[1..]) by {
        if AllSpace(s[1..]) {
          forall i | 0 <= i < |s| ensures IsSpace(s[i]) {
            if i > 0 { assert s[i] == s[1..][i - 1]; }
          }
        }
      }
    } else {
      assert !AllSpace(s);
    }
  }

  // ---------------------------------------------------------------------------
  // Splitting on one character (`s.split(c)`)
  // ---------------------------------------------------------------------------

  /** Length of the leading run of characters other than `c`. */
  function SegmentLength(s: string, c: char): (n: nat)
    ensures n <= |s|
    ensures forall i :: 0 <= i < n ==> s[i] != c
    ensures n == |s| || s[n] == c
  {
    if s == [] || s[0] == c then 0 else 1 + SegmentLength(s[1..], c)
  }

  /** `s.split(c)`: Python keeps empty pieces between adjacent separators. */
  function SplitOn(s: string, c: char): (parts: seq<string>)
    ensures |parts| >= 1
    decreases |s|
  {
    var n := SegmentLength(s, c);
    if n == |s| then [s] else [s[..n]] + SplitOn(s[n + 1..], c)
  }

  /** Number of occurrences of `c` in `s`. */
  function Count(s: string, c: char): nat {
    if s == [] then 0 else (if s[0] == c then 1 else 0) + Count(s[1..], c)
  }

  lemma {:induction false} CountAppend(a: string, b: string, c: char)
    ensures Count(a + b, c) == Count(a, c) + Count(b, c)
  {
    if a != [] {
      assert (a + b)[1..] == a[1..] + b;
      CountAppend(a[1..], b, c);
    } else {
      assert a + b == b;
    }
  }

  lemma {:induction false} CountNone(s: string, c: char)
    requires forall i :: 0 <= i < |s| ==> s[i] != c
    ensures Count(s, c) == 0
  {
    if s != [] {
      CountNone(s[1..], c);
    }
  }

  /** A string that holds `c` counts it at least once. */
  lemma {:induction false} CountPositive(s: string, c: char)
    requires c in s
    ensures Count(s, c) >= 1
  {
    if s[0] != c {
      assert c in s[1..];
      CountPositive(s[1..], c);
    }
  }

  /** `s.split(c)` has one more piece than `s` has separators. */
  lemma {:induction false} SplitOnLength(s: string, c: char)
    ensures |SplitOn(s, c)| == Count(s, c) + 1
    decreases |s|
  {
    var n := SegmentLength(s, c);
    CountNone(s[..n], c);
    if n == |s| {
      assert s[..n] == s;
    } else {
      SplitOnLength(s[n + 1..], c);
      assert s == s[..n] + [c] + s[n + 1..];
      CountAppend(s[..n] + [c], s[n + 1..], c);
      CountAppend(s[..n], [c], c);
    }
  }

  /** Splitting `a + [c] + b` where `a` has no `c` gives `a` and then the pieces of `b`. */
  lemma SplitOnCons(a: string, c: char, b: string)
    requires forall i :: 0 <= i < |a| ==> a[i] != c
    ensures SplitOn(a + [c] + b, c) == [a] + SplitOn(b, c)
  {
    var s := a + [c] + b;
    var n := SegmentLength(s, c);
    assert s[|a|] == c;
    assert forall i :: 0 <= i < |a| ==> s[i] == a[i];
    assert n == |a|;
    assert s[..n] == a;
    assert s[n + 1..] == b;
  }

  /** Splitting a string without `c` gives the string itself. */
  lemma SplitOnNone(a: string, c: char)
    requires forall i :: 0 <= i < |a| ==> a[i] != c
    ensures SplitOn(a, c) == [a]
  {
    var n := SegmentLength(a, c);
    assert n == |a|;
  }

  // ---------------------------------------------------------------------------
  // Decimal rendering of integers (`str(n)`, f-string interpolation) and its
  // inverse
  // ---------------------------------------------------------------------------

  function DigitChar(d: nat): char
    requires d < 10
  {
    ('0' as int + d) as char
  }

  predicate IsDigit(c: char) {
    '0' <= c <= '9'
  }

  function NatToString(n: nat): (s: string)
    ensures |s| >= 1
    ensures forall i :: 0 <= i < |s| ==> IsDigit(s[i])
    decreases n
  {
    if n < 10 then [DigitChar(n)] else NatToString(n / 10) + [DigitChar(n % 10)]
  }

  /** `str(i)` for any integer. */
  function IntToString(i: int): (s: string)
    ensures |s| >= 1
    ensures forall k :: 0 <= k < |s| ==> s[k] != ' '
    ensures i < 0 <==> s[0] == '-'
  {
    if i < 0 then "-" + NatToString(-i) else NatToString(i)
  }

  /** Different integers render differently. */
  lemma IntToStringInjective(a: int, b: int)
    requires IntToString(a) == IntToString(b)
    ensures a == b
  {
    if a < 0 {
      assert NatToString(-a) == IntToString(a)[1..] == IntToString(b)[1..] == NatToString(-b);
      NatToStringRoundTrip(-a);
      NatToStringRoundTrip(-b);
    } else {
      NatToStringRoundTrip(a);
      NatToStringRoundTrip(b);
    }
  }

  /** The value of a string of decimal digits. */
  function DigitsValue(s: string): nat
    requires forall i :: 0 <= i < |s| ==> IsDigit(s[i])
  {
    if s == [] then 0
    else
      assert IsDigit(s[|s| - 1]);
      DigitsValue(s[..|s| - 1]) * 10 + (s[|s| - 1] as int - '0' as int)
  }

  /** `int(s)` restricted to non-empty strings of decimal digits. */
  function ParseNat(s: string): (r: Option<nat>)
  {
    if s != [] && forall i :: 0 <= i < |s| ==> IsDigit(s[i]) then Some(DigitsValue(s)) else None
  }

  /** Reading back a rendered natural number gives the number. */
  lemma {:induction false} NatToStringRoundTrip(n: nat)
    ensures ParseNat(NatToString(n)) == Some(n)
    decreases n
  {
    var s := NatToString(n);
    if n >= 10 {
      NatToStringRoundTrip(n / 10);
      var p := NatToString(n / 10);
      assert s == p + [DigitChar(n % 10)];
      assert s[..|s| - 1] == p;
      assert DigitsValue(s) == DigitsValue(p) * 10 + n % 10;
    } else {
      assert DigitsValue(s) == DigitsValue([]) * 10 + n;
    }
  }

  // ---------------------------------------------------------------------------
  // f-string interpolation of a dictionary value
  // ---------------------------------------------------------------------------

  /** `f"{v}"`: `None` renders as "None", booleans as "True"/"False". */
  function Show(v: Value): string {
    match v
    case Null => "None"
    case Str(s) => s
    case Int(i) => IntToString(i)
    case Bool(b) => if b then "True" else "False"
  }
}
