/**
 * The ECMAScript string operations the page scripts call: `trim`, the `\s`
 * character class, case mapping, `includes`/`indexOf`, `replace` with a string
 * pattern, `parseInt` and the decimal form of an integer.
 */
module JsString {
  import opened Optional

  /** WhiteSpace and LineTerminator of ECMAScript: what `trim` strips and what `\s` matches. */
  predicate IsSpace(c: char) {
    c == '\t' || c == '\n' || c == '\U{B}' || c == '\U{C}' || c == '\r' || c == ' '
    || c == '\U{A0}' || c == '\U{1680}' || ('\U{2000}' <= c <= '\U{200A}')
    || c == '\U{2028}' || c == '\U{2029}' || c == '\U{202F}' || c == '\U{205F}'
    || c == '\U{3000}' || c == '\U{FEFF}'
  }

  /** The suffix of `s` left once its leading white space is gone. */
  function TrimStart(s: string): (r: string)
    ensures |r| <= |s| && r == s[|s| - |r|..]
    ensures r == [] || !IsSpace(r[0])
  {
    if s != [] && IsSpace(s[0]) then TrimStart(s[1..]) else s
  }

  /** What `TrimStart` cuts off is white space. */
  lemma {:induction false} TrimStartCutsSpace(s: string)
    ensures forall i :: 0 <= i < |s| - |TrimStart(s)| ==> IsSpace(s[i])
  {
    if s != [] && IsSpace(s[0]) {
      TrimStartCutsSpace(s[1..]);
      forall i | 1 <= i < |s| - |TrimStart(s)| ensures IsSpace(s[i]) {
        assert s[i] == s[1..][i - 1];
      }
    }
  }

  /** The prefix of `s` left once its trailing white space is gone. */
  function TrimEnd(s: string): (r: string)
    ensures |r| <= |s| && r == s[..|r|]
    ensures r == [] || !IsSpace(r[|r| - 1])
  {
    if s != [] && IsSpace(s[|s| - 1]) then TrimEnd(s[..|s| - 1]) else s
  }

  /** What `TrimEnd` cuts off is white space. */
  lemma {:induction false} TrimEndCutsSpace(s: string)
    ensures forall i :: |TrimEnd(s)| <= i < |s| ==> IsSpace(s[i])
  {
    if s != [] && IsSpace(s[|s| - 1]) {
      TrimEndCutsSpace(s[..|s| - 1]);
      forall i | |TrimEnd(s)| <= i < |s| - 1 ensures IsSpace(s[i]) {
        assert s[i] == s[..|s| - 1][i];
      }
    }
  }

  /** `s.trim()`: empty exactly when `s` is all white space, and never starting or ending with it. */
  function Trim(s: string): (r: string)
    ensures |r| <= |s|
    ensures r == [] <==> forall i :: 0 <= i < |s| ==> IsSpace(s[i])
    ensures r != [] ==> !IsSpace(r[0]) && !IsSpace(r[|r| - 1])
  {
    TrimAllSpace(s);
    TrimEnds(s);
    TrimEnd(TrimStart(s))
  }

  predicate AllSpace(s: string) {
    forall i :: 0 <= i < |s| ==> IsSpace(s[i])
  }

  /**
   * `trim` cuts nothing but white space: `s` is some white space, then what
   * `trim` keeps, then some white space.
   */
  lemma TrimKeepsStretch(s: string) returns (lead: string, trail: string)
    ensures s == lead + Trim(s) + trail
    ensures AllSpace(lead) && AllSpace(trail)
  {
    var t := TrimStart(s);
    var a := |s| - |t|;
    var r := TrimEnd(t);
    TrimMiddle(s);
    SplitAround(s, a, |r|);
    TrimStartCutsSpace(s);
    TrimTrailing(s);
    lead, trail := s[..a], s[a + |r|..];
  }

  lemma TrimMiddle(s: string)
    ensures var t := TrimStart(s); var a := |s| - |t|; var r := TrimEnd(t);
      a + |r| <= |s| && r == s[a..a + |r|]
  {
    var t := TrimStart(s);
    var a := |s| - |t|;
    var r := TrimEnd(t);
    SliceOfSuffix(s, a, |r|);
  }

  /** The first `n` characters of the suffix from `a` are the stretch from `a` to `a + n`. */
  lemma SliceOfSuffix(s: string, a: nat, n: nat)
    requires a + n <= |s|
    ensures s[a..][..n] == s[a..a + n]
  {
  }

  lemma TrimTrailing(s: string)
    ensures var t := TrimStart(s); var a := |s| - |t|;
      forall i :: a + |TrimEnd(t)| <= i < |s| ==> IsSpace(s[i])
  {
    var t := TrimStart(s);
    var a := |s| - |t|;
    TrimEndCutsSpace(t);
    forall i | a + |TrimEnd(t)| <= i < |s| ensures IsSpace(s[i]) {
      assert s[i] == t[i - a];
    }
  }

  /** Trimming both ends leaves nothing exactly when `s` is all white space. */
  lemma TrimAllSpace(s: string)
    ensures TrimEnd(TrimStart(s)) == [] <==> forall i :: 0 <= i < |s| ==> IsSpace(s[i])
  {
    TrimStartCutsSpace(s);
    TrimMiddle(s);
    TrimTrailing(s);
    TrimStartFirst(s);
  }

  /** What `TrimStart` keeps begins at the first character it does not cut. */
  lemma TrimStartFirst(s: string)
    ensures TrimStart(s) != [] ==> TrimStart(s)[0] == s[|s| - |TrimStart(s)|]
  {
  }

  /** What is left after trimming both ends starts and ends with a non-space character. */
  lemma TrimEnds(s: string)
    ensures var r := TrimEnd(TrimStart(s)); r != [] ==> !IsSpace(r[0]) && !IsSpace(r[|r| - 1])
  {
    var t := TrimStart(s);
    var r := TrimEnd(t);
    if r != [] {
      assert r[0] == t[0];
    }
  }

  /** `s.replace(/\s/g, '')`: the characters of `s` that are not white space, in order. */
  function RemoveSpaces(s: string): (r: string)
    ensures |r| <= |s|
    ensures forall i :: 0 <= i < |r| ==> !IsSpace(r[i])
  {
    if s == [] then []
    else if IsSpace(s[0]) then RemoveSpaces(s[1..])
    else [s[0]] + RemoveSpaces(s[1..])
  }

  /** A single character is dropped when it is white space and kept otherwise. */
  lemma RemoveSpacesChar(c: char)
    ensures RemoveSpaces([c]) == if IsSpace(c) then [] else [c]
  {
    assert [c][1..] == [];
  }

  /** Removing white space from a concatenation removes it from each part. */
  lemma {:induction false} RemoveSpacesConcat(a: string, b: string)
    ensures RemoveSpaces(a + b) == RemoveSpaces(a) + RemoveSpaces(b)
  {
    if a != [] {
      assert (a + b)[1..] == a[1..] + b;
      RemoveSpacesConcat(a[1..], b);
    } else {
      assert a + b == b;
    }
  }

  /** The upper-case form of an ASCII letter; every other character is left alone. */
  function UpperChar(c: char): char {
    if 'a' <= c <= 'z' then (c as int - 32) as char else c
  }

  /** The lower-case form of an ASCII letter; every other character is left alone. */
  function LowerChar(c: char): char {
    if 'A' <= c <= 'Z' then (c as int + 32) as char else c
  }

  /** `s.toUpperCase()` on ASCII letters: same length, letter by letter. */
  function ToUpperCase(s: string): (r: string)
    ensures |r| == |s| && forall i :: 0 <= i < |s| ==> r[i] == UpperChar(s[i])
  {
    seq(|s|, i requires 0 <= i < |s| => UpperChar(s[i]))
  }

  /** `s.toLowerCase()` on ASCII letters: same length, letter by letter. */
  function ToLowerCase(s: string): (r: string)
    ensures |r| == |s| && forall i :: 0 <= i < |s| ==> r[i] == LowerChar(s[i])
  {
    seq(|s|, i requires 0 <= i < |s| => LowerChar(s[i]))
  }

  /** A lower-cased string has no upper-case ASCII letter left, and lower-casing it again changes nothing. */
  lemma LowerCaseIsLower(s: string)
    ensures forall i :: 0 <= i < |s| ==> !('A' <= ToLowerCase(s)[i] <= 'Z')
    ensures ToLowerCase(ToLowerCase(s)) == ToLowerCase(s)
  {
    var r := ToLowerCase(s);
    forall i | 0 <= i < |s| ensures LowerChar(r[i]) == r[i] {
      assert r[i] == LowerChar(s[i]);
    }
  }

  /** An upper-cased string has no lower-case ASCII letter left, and upper-casing it again changes nothing. */
  lemma UpperCaseIsUpper(s: string)
    ensures forall i :: 0 <= i < |s| ==> !('a' <= ToUpperCase(s)[i] <= 'z')
    ensures ToUpperCase(ToUpperCase(s)) == ToUpperCase(s)
  {
    var r := ToUpperCase(s);
    forall i | 0 <= i < |s| ensures UpperChar(r[i]) == r[i] {
      assert r[i] == UpperChar(s[i]);
    }
  }

  /**
   * Case mapping forgets only the case: lower-casing an upper-cased string
   * gives the lower-cased string, and upper-casing a lower-cased one the
   * upper-cased string, so two strings that differ only in the case of their
   * letters are mapped to the same string.
   */
  lemma CaseRoundTrip(s: string)
    ensures ToLowerCase(ToUpperCase(s)) == ToLowerCase(s)
    ensures ToUpperCase(ToLowerCase(s)) == ToUpperCase(s)
  {
    var u, l := ToUpperCase(s), ToLowerCase(s);
    forall i | 0 <= i < |s| ensures LowerChar(u[i]) == l[i] && UpperChar(l[i]) == u[i] {
      assert u[i] == UpperChar(s[i]) && l[i] == LowerChar(s[i]);
    }
  }

  /** Case mapping goes character by character, so it distributes over concatenation. */
  lemma CaseConcat(a: string, b: string)
    ensures ToLowerCase(a + b) == ToLowerCase(a) + ToLowerCase(b)
    ensures ToUpperCase(a + b) == ToUpperCase(a) + ToUpperCase(b)
  {
    var s := a + b;
    forall i | 0 <= i < |s|
      ensures ToLowerCase(s)[i] == (ToLowerCase(a) + ToLowerCase(b))[i]
      ensures ToUpperCase(s)[i] == (ToUpperCase(a) + ToUpperCase(b))[i]
    {
      if i < |a| {
        assert s[i] == a[i];
      } else {
        assert s[i] == b[i - |a|];
      }
    }
  }

  predicate StartsWith(s: string, p: string) {
    |p| <= |s| && s[..|p|] == p
  }

  /** `s.indexOf(p)`: the first position where `p` occurs in `s`, or none. */
  function IndexOf(s: string, p: string): (r: Option<nat>)
    ensures r.Some? ==> r.value + |p| <= |s| && s[r.value..r.value + |p|] == p
  {
    if StartsWith(s, p) then Some(0)
    else if s == [] then None
    else
      match IndexOf(s[1..], p)
      case None => None
      case Some(k) => Some(k + 1)
  }

  /** `indexOf` finds the first occurrence, and finds none only when there is none. */
  lemma {:induction false} IndexOfIsFirst(s: string, p: string)
    ensures IndexOf(s, p).Some? ==> forall k :: 0 <= k < IndexOf(s, p).value ==> !StartsWith(s[k..], p)
    ensures IndexOf(s, p).None? ==> forall k :: 0 <= k <= |s| ==> !StartsWith(s[k..], p)
  {
    if !StartsWith(s, p) && s != [] {
      IndexOfIsFirst(s[1..], p);
      assert s[0..] == s;
      assert forall k :: 1 <= k <= |s| ==> s[k..] == s[1..][k - 1..];
    }
  }

  /** An occurrence at `k` with none before it is what `indexOf` finds. */
  lemma {:induction false} IndexOfFirst(s: string, p: string, k: nat)
    requires k + |p| <= |s| && s[k..k + |p|] == p
    requires forall j :: 0 <= j < k ==> !StartsWith(s[j..], p)
    ensures IndexOf(s, p) == Some(k)
  {
    if k == 0 {
      assert s[..|p|] == s[0..|p|];
      assert StartsWith(s, p);
    } else {
      var t := s[1..];
      assert s[0..] == s;
      assert t[k - 1..k - 1 + |p|] == s[k..k + |p|];
      NoMatchShift(s, p, k);
      IndexOfFirst(t, p, k - 1);
      IndexOfStep(s, p);
    }
  }

  /** With no match at position 0, `indexOf` searches on from position 1. */
  lemma IndexOfStep(s: string, p: string)
    requires s != [] && !StartsWith(s, p) && IndexOf(s[1..], p).Some?
    ensures IndexOf(s, p) == Some(IndexOf(s[1..], p).value + 1)
  {
  }

  /** No match below `k` in `s` means none below `k - 1` in `s` without its first character. */
  lemma NoMatchShift(s: string, p: string, k: nat)
    requires 0 < k <= |s|
    requires forall j :: 0 <= j < k ==> !StartsWith(s[j..], p)
    ensures forall j :: 0 <= j < k - 1 ==> !StartsWith(s[1..][j..], p)
  {
    forall j | 0 <= j < k - 1 ensures !StartsWith(s[1..][j..], p) {
      assert s[1..][j..] == s[j + 1..];
    }
  }

  /** `s.includes(p)`. */
  predicate Includes(s: string, p: string) {
    IndexOf(s, p).Some?
  }

  /**
   * GetSubstitution of ECMAScript for a string pattern, which has no capture
   * groups: `$$`, `$&`, `` $` `` and `$'` are expanded, every other character
   * (a `$` that starts none of these included) is copied.
   */
  function Substitute(replacement: string, matched: string, before: string, after: string): string
  {
    if |replacement| >= 2 && replacement[0] == '$' && replacement[1] in "$&`'" then
      var expansion :=
        if replacement[1] == '$' then "$"
        else if replacement[1] == '&' then matched
        else if replacement[1] == '`' then before
        else after;
      expansion + Substitute(replacement[2..], matched, before, after)
    else if replacement == [] then []
    else [replacement[0]] + Substitute(replacement[1..], matched, before, after)
  }

  /** `s.replace(pattern, replacement)` with a string pattern: only the first occurrence is replaced. */
  function Replace(s: string, pattern: string, replacement: string): (r: string)
    ensures IndexOf(s, pattern).None? ==> r == s
  {
    match IndexOf(s, pattern)
    case None => s
    case Some(k) =>
      var after := s[k + |pattern|..];
      s[..k] + Substitute(replacement, pattern, s[..k], after) + after
  }

  /** A replacement without `$` is inserted as it is. */
  lemma {:induction false} SubstituteLiteral(replacement: string, matched: string, before: string, after: string)
    requires '$' !in replacement
    ensures Substitute(replacement, matched, before, after) == replacement
  {
    if replacement != [] {
      assert replacement[0] != '$';
      assert '$' !in replacement[1..] by {
        forall i | 0 <= i < |replacement[1..]| ensures replacement[1..][i] != '$' {
          assert replacement[1..][i] == replacement[i + 1];
        }
      }
      SubstituteLiteral(replacement[1..], matched, before, after);
    }
  }

  /** Where `indexOf` finds the pattern, `replace` puts the expanded replacement between the parts around it. */
  lemma ReplaceAt(s: string, pattern: string, replacement: string, k: nat)
    requires IndexOf(s, pattern) == Some(k)
    ensures k + |pattern| <= |s| && s[k..k + |pattern|] == pattern
    ensures Replace(s, pattern, replacement) ==
            s[..k] + Substitute(replacement, pattern, s[..k], s[k + |pattern|..]) + s[k + |pattern|..]
  {
  }

  /**
   * `replace` puts a `$`-free replacement in place of the first occurrence of
   * the pattern and keeps everything around it.
   */
  lemma ReplaceFirst(s: string, pattern: string, replacement: string, k: nat)
    requires '$' !in replacement
    requires IndexOf(s, pattern) == Some(k)
    ensures Replace(s, pattern, replacement) == s[..k] + replacement + s[k + |pattern|..]
  {
    ReplaceAt(s, pattern, replacement, k);
    SubstituteLiteral(replacement, pattern, s[..k], s[k + |pattern|..]);
  }

  /** A replacement of `$&` puts back the very text it matched: the string comes out unchanged. */
  lemma ReplaceWithMatch(s: string, pattern: string, k: nat)
    requires IndexOf(s, pattern) == Some(k)
    ensures Replace(s, pattern, "$&") == s
  {
    var before, after := s[..k], s[k + |pattern|..];
    ReplaceAt(s, pattern, "$&", k);
    SubstituteMatch(pattern, before, after);
    SplitAround(s, k, |pattern|);
  }

  /** A string is the part before position `k`, the `n` characters from `k`, and the rest. */
  lemma SplitAround(s: string, k: nat, n: nat)
    requires k + n <= |s|
    ensures s[..k] + s[k..k + n] + s[k + n..] == s
  {
  }

  /** `$&` stands for the matched text. */
  lemma SubstituteMatch(matched: string, before: string, after: string)
    ensures Substitute("$&", matched, before, after) == matched
  {
    assert "$&"[2..] == [];
  }

  predicate IsDigit(c: char) {
    '0' <= c <= '9'
  }

  function DigitChar(d: nat): (c: char)
    requires d < 10
    ensures IsDigit(c)
  {
    "0123456789"[d]
  }

  /** The value of `c` as a digit of `radix` (2..36), as `parseInt` reads it. */
  function DigitIn(c: char, radix: nat): (r: Option<nat>)
    ensures r.Some? ==> r.value < radix
  {
    var v: int :=
      if '0' <= c <= '9' then c as int - '0' as int
      else if 'a' <= c <= 'z' then c as int - 'a' as int + 10
      else if 'A' <= c <= 'Z' then c as int - 'A' as int + 10
      else 36;
    if v < radix then Some(v) else None
  }

  predicate AllDigitsIn(s: string, radix: nat) {
    forall i :: 0 <= i < |s| ==> DigitIn(s[i], radix).Some?
  }

  /** The number a string of `radix` digits denotes, most significant digit first. */
  function Value(s: string, radix: nat): nat
    requires AllDigitsIn(s, radix)
  {
    if s == [] then 0
    else Value(s[..|s| - 1], radix) * radix + DigitIn(s[|s| - 1], radix).value
  }

  /** The length of the longest prefix of `s` made of `radix` digits. */
  function DigitPrefix(s: string, radix: nat): (n: nat)
    ensures n <= |s| && AllDigitsIn(s[..n], radix)
    ensures n < |s| ==> DigitIn(s[n], radix).None?
  {
    if s == [] || DigitIn(s[0], radix).None? then 0
    else
      var n := 1 + DigitPrefix(s[1..], radix);
      assert forall i :: 1 <= i < n ==> s[..n][i] == s[1..][..n - 1][i - 1];
      n
  }

  /**
   * What `parseInt` reads once white space and sign are gone: a `0x`/`0X`
   * prefix selects base 16, otherwise base 10, and the longest run of digits
   * of that base is read; `None` when there is no digit at all.
   */
  function ParseUnsigned(u: string): (r: Option<nat>)
    ensures r.Some? ==> u != []
  {
    var hex := |u| >= 2 && u[0] == '0' && (u[1] == 'x' || u[1] == 'X');
    var radix := if hex then 16 else 10;
    var digits := if hex then u[2..] else u;
    var n := DigitPrefix(digits, radix);
    if n == 0 then None else Some(Value(digits[..n], radix))
  }

  /** `t` without the one sign character it may start with. */
  function Unsigned(t: string): (u: string)
    ensures |u| <= |t|
  {
    if t != [] && (t[0] == '-' || t[0] == '+') then t[1..] else t
  }

  /**
   * `parseInt(s)` without a radix: leading white space and one sign are
   * skipped, then the digits are read; `None` stands for `NaN`.
   */
  function ParseInt(s: string): Option<int> {
    var t := TrimStart(s);
    match ParseUnsigned(Unsigned(t))
    case None => None
    case Some(m) => Some(if t[0] == '-' then -(m as int) else m as int)
  }

  /** A decimal numeral without a leading zero is read whole, in base 10. */
  lemma ParseUnsignedDecimal(s: string)
    requires s != [] && AllDigitsIn(s, 10) && (s[0] == '0' ==> |s| == 1)
    ensures ParseUnsigned(s) == Some(Value(s, 10))
  {
    assert !(|s| >= 2 && s[0] == '0');
    assert DigitPrefix(s, 10) == |s|;
    assert s[..|s|] == s;
  }

  /** `String(n)` for an integer n >= 0: its decimal digits, without leading zeros. */
  function NatToString(n: nat): (r: string)
    ensures |r| >= 1 && forall i :: 0 <= i < |r| ==> IsDigit(r[i])
    ensures r[0] == '0' ==> n == 0
  {
    if n < 10 then [DigitChar(n)] else NatToString(n / 10) + [DigitChar(n % 10)]
  }

  /** `String(i)` for any integer: a minus sign before the digits of a negative one. */
  function IntToString(i: int): (r: string)
    ensures |r| >= 1 && (i < 0 <==> r[0] == '-')
  {
    if i < 0 then "-" + NatToString(-i) else NatToString(i)
  }

  /** Reading the decimal digits of `n` back gives `n`. */
  lemma {:induction false} DecimalRoundTrip(n: nat)
    ensures AllDigitsIn(NatToString(n), 10) && Value(NatToString(n), 10) == n
  {
    var s := NatToString(n);
    if n < 10 {
      assert DigitIn(s[0], 10) == Some(n);
      assert s[..0] == [];
    } else {
      DecimalRoundTrip(n / 10);
      var d := n % 10;
      assert s == NatToString(n / 10) + [DigitChar(d)];
      assert s[..|s| - 1] == NatToString(n / 10);
      assert DigitIn(s[|s| - 1], 10) == Some(d);
    }
  }

  /** A string that starts with a digit has no white space or sign for `parseInt` to skip. */
  lemma ParseIntDigitStart(s: string)
    requires s != [] && IsDigit(s[0])
    ensures ParseInt(s) == match ParseUnsigned(s) case None => None case Some(m) => Some(m as int)
  {
    assert !IsSpace(s[0]) && s[0] != '-' && s[0] != '+';
    assert TrimStart(s) == s;
    assert Unsigned(s) == s;
  }

  /** `parseInt` reads a decimal numeral without a leading zero as its value. */
  lemma ParseIntNumeral(s: string)
    requires s != [] && AllDigitsIn(s, 10) && (s[0] == '0' ==> |s| == 1)
    ensures ParseInt(s) == Some(Value(s, 10))
  {
    assert DigitIn(s[0], 10).Some?;
    ParseIntDigitStart(s);
    ParseUnsignedDecimal(s);
  }

  /** `parseInt` reads the decimal form of a non-negative integer back exactly. */
  lemma ParseIntNatToString(n: nat)
    ensures ParseInt(NatToString(n)) == Some(n)
  {
    DecimalRoundTrip(n);
    ParseIntNumeral(NatToString(n));
  }

  /** `parseInt` reads the decimal form of any integer back exactly. */
  lemma ParseIntIntToString(i: int)
    ensures ParseInt(IntToString(i)) == Some(i)
  {
    if i >= 0 {
      ParseIntNatToString(i);
    } else {
      ParseIntNegative(-i);
    }
  }

  /** After a leading minus sign `parseInt` reads the rest as a magnitude and negates it. */
  lemma ParseIntMinus(s: string, m: nat)
    requires s != [] && s[0] == '-' && ParseUnsigned(s[1..]) == Some(m)
    ensures ParseInt(s) == Some(-(m as int))
  {
    assert !IsSpace(s[0]);
    assert TrimStart(s) == s;
    assert Unsigned(s) == s[1..];
  }

  /** `parseInt` reads the decimal form of a negative integer, a minus sign and its magnitude, back. */
  lemma ParseIntNegative(n: nat)
    requires n > 0
    ensures ParseInt(IntToString(-(n as int))) == Some(-(n as int))
  {
    var d := NatToString(n);
    DecimalRoundTrip(n);
    ParseUnsignedDecimal(d);
    var s := "-" + d;
    assert s[1..] == d;
    ParseIntMinus(s, n);
    assert IntToString(-(n as int)) == s;
  }



}
