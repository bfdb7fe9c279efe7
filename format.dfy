/**
 * `utils.formatNumber`: the decimal form of a number with a comma inserted
 * at every position the pattern `/\B(?=(\d{3})+(?!\d))/g` matches.
 */
module Format {
  import opened JsString

  /** A character of `\w`. */
  predicate IsWordChar(c: char) {
    'a' <= c <= 'z' || 'A' <= c <= 'Z' || IsDigit(c) || c == '_'
  }

  /** `\B` at position `p`: the characters on both sides are word characters, or neither is. */
  predicate NotBoundary(s: string, p: nat)
    requires p <= |s|
  {
    (p > 0 && IsWordChar(s[p - 1])) == (p < |s| && IsWordChar(s[p]))
  }

  /** The length of the run of digits starting at position `p`. */
  function DigitRun(s: string, p: nat): (n: nat)
    requires p <= |s|
    ensures p + n <= |s|
    decreases |s| - p
  {
    if p == |s| || !IsDigit(s[p]) then 0 else 1 + DigitRun(s, p + 1)
  }

  /** The run starting at `p` is made of digits and ends at the end of `s` or before a non-digit. */
  lemma {:induction false} DigitRunIsRun(s: string, p: nat)
    requires p <= |s|
    ensures forall i :: p <= i < p + DigitRun(s, p) ==> IsDigit(s[i])
    ensures p + DigitRun(s, p) == |s| || !IsDigit(s[p + DigitRun(s, p)])
    decreases |s| - p
  {
    if p < |s| && IsDigit(s[p]) {
      DigitRunIsRun(s, p + 1);
    }
  }

  predicate AllDigits(s: string) {
    forall i :: 0 <= i < |s| ==> IsDigit(s[i])
  }

  /**
   * What the look-ahead `(?=(\d{3})+(?!\d))` asks at position `p`: one or more
   * groups of three digits, then no further digit.
   */
  ghost predicate GroupsAhead(s: string, p: nat)
    requires p <= |s|
  {
    exists m: nat :: 1 <= m && p + 3 * m <= |s| && AllDigits(s[p..p + 3 * m])
      && (p + 3 * m == |s| || !IsDigit(s[p + 3 * m]))
  }

  /** Where a comma goes: `\B` holds and the digit run ahead is a positive multiple of three. */
  predicate CommaAt(s: string, p: nat)
    requires p <= |s|
  {
    NotBoundary(s, p) && DigitRun(s, p) >= 3 && DigitRun(s, p) % 3 == 0
  }

  /** A run of exactly `k` digits starts at `p` when `k` digits follow it and then no digit. */
  lemma {:induction false} DigitRunExact(s: string, p: nat, k: nat)
    requires p + k <= |s|
    requires forall i :: p <= i < p + k ==> IsDigit(s[i])
    requires p + k == |s| || !IsDigit(s[p + k])
    ensures DigitRun(s, p) == k
    decreases k
  {
    if k > 0 {
      DigitRunExact(s, p + 1, k - 1);
    }
  }

  lemma DigitsSlice(d: string, i: nat, j: nat)
    requires AllDigits(d) && i <= j <= |d|
    ensures AllDigits(d[i..j])
  {
    var t := d[i..j];
    forall k | 0 <= k < |t| ensures IsDigit(t[k]) {
      assert t[k] == d[i + k];
    }
  }

  /** The look-ahead holds exactly where the run of digits ahead is a positive multiple of three. */
  lemma GroupsAheadIsRun(s: string, p: nat)
    requires p <= |s|
    ensures GroupsAhead(s, p) <==> DigitRun(s, p) >= 3 && DigitRun(s, p) % 3 == 0
  {
    var n := DigitRun(s, p);
    DigitRunIsRun(s, p);
    if n >= 3 && n % 3 == 0 {
      var m := n / 3;
      var ahead := s[p..p + 3 * m];
      assert AllDigits(ahead) by {
        forall i | 0 <= i < |ahead| ensures IsDigit(ahead[i]) {
          assert ahead[i] == s[p + i];
        }
      }
    }
    if GroupsAhead(s, p) {
      var m: nat :| 1 <= m && p + 3 * m <= |s| && AllDigits(s[p..p + 3 * m])
        && (p + 3 * m == |s| || !IsDigit(s[p + 3 * m]));
      var ahead := s[p..p + 3 * m];
      forall i | p <= i < p + 3 * m ensures IsDigit(s[i]) {
        assert s[i] == ahead[i - p];
      }
      DigitRunExact(s, p, 3 * m);
    }
  }

  /**
   * The first `q` characters of `s` after the global replace: every position
   * below `q` is tried in turn (each match is empty, so the scan moves on by one),
   * and a comma goes before the character wherever the pattern matches.
   */
  function Scan(s: string, q: nat): string
    requires q <= |s|
    decreases q
  {
    if q == 0 then [] else Scan(s, q - 1) + (if CommaAt(s, q - 1) then [','] else []) + [s[q - 1]]
  }

  /** `s.replace(/\B(?=(\d{3})+(?!\d))/g, ",")`, the position after the last character included. */
  function InsertCommas(s: string): string {
    Scan(s, |s|) + (if CommaAt(s, |s|) then [','] else [])
  }

  /** `formatNumber(num)` for an integer. */
  function FormatNumber(num: int): string {
    InsertCommas(IntToString(num))
  }

  /** The digits of a numeral grouped in threes from the right. */
  function Group(d: string): string
    decreases |d|
  {
    if |d| <= 3 then d else Group(d[..|d| - 3]) + [','] + d[|d| - 3..]
  }

  /** `s` with its commas taken out. */
  function RemoveCommas(s: string): (r: string)
    ensures |r| <= |s|
  {
    if s == [] then []
    else RemoveCommas(s[..|s| - 1]) + (if s[|s| - 1] == ',' then [] else [s[|s| - 1]])
  }

  /** In a string of digits a comma goes exactly at the inner positions with a multiple of three digits after them. */
  lemma CommaInDigits(d: string, p: nat)
    requires AllDigits(d) && p <= |d|
    ensures CommaAt(d, p) <==> 0 < p < |d| && (|d| - p) % 3 == 0
  {
    DigitRunExact(d, p, |d| - p);
  }

  /** Scanning a prefix of `d` that stops short of the last three digits gives the same text as scanning that prefix alone. */
  lemma {:induction false} ScanPrefix(d: string, q: nat)
    requires AllDigits(d) && |d| > 3 && q <= |d| - 3
    ensures Scan(d, q) == Scan(d[..|d| - 3], q)
    decreases q
  {
    if q > 0 {
      var t := d[..|d| - 3];
      DigitsSlice(d, 0, |d| - 3);
      ScanPrefix(d, q - 1);
      if 1 < q && (|d| - q + 1) % 3 == 0 {
        ScanComma(d, q);
        ScanComma(t, q);
      } else {
        ScanPlain(d, q);
        ScanPlain(t, q);
      }
      assert t[q - 1] == d[q - 1];
    }
  }

  /** In a numeral of at most three digits no comma goes anywhere. */
  lemma {:induction false} ScanShort(d: string, q: nat)
    requires AllDigits(d) && |d| <= 3 && q <= |d|
    ensures Scan(d, q) == d[..q]
    decreases q
  {
    if q > 0 {
      ScanShort(d, q - 1);
      CommaInDigits(d, q - 1);
      assert d[..q] == d[..q - 1] + [d[q - 1]];
    }
  }

  /** A step of the scan over a digit string with a multiple of three digits ahead puts a comma first. */
  lemma ScanComma(d: string, q: nat)
    requires AllDigits(d) && 1 < q <= |d| && (|d| - q + 1) % 3 == 0
    ensures Scan(d, q) == Scan(d, q - 1) + [',', d[q - 1]]
  {
    CommaInDigits(d, q - 1);
  }

  /** Any other step of the scan over a digit string copies the digit alone. */
  lemma ScanPlain(d: string, q: nat)
    requires AllDigits(d) && 0 < q <= |d| && !(1 < q && (|d| - q + 1) % 3 == 0)
    ensures Scan(d, q) == Scan(d, q - 1) + [d[q - 1]]
  {
    CommaInDigits(d, q - 1);
  }

  /** The scan over the last three digits of a longer numeral: a comma, then the digits. */
  lemma ScanLastThree(d: string)
    requires AllDigits(d) && |d| > 3
    ensures Scan(d, |d|) == Scan(d, |d| - 3) + [','] + d[|d| - 3..]
  {
    var n := |d|;
    assert d[n - 3..] == [d[n - 3], d[n - 2], d[n - 1]];
    ScanComma(d, n - 2);
    ScanPlain(d, n - 1);
    ScanPlain(d, n);
  }

  /** The last three digits of a longer numeral come after a comma and get none of their own. */
  lemma ScanLastGroup(d: string)
    requires AllDigits(d) && |d| > 3
    ensures InsertCommas(d) == Scan(d, |d| - 3) + [','] + d[|d| - 3..]
  {
    ScanLastThree(d);
    CommaInDigits(d, |d|);
  }

  /** On a string of digits the replace groups the digits in threes from the right. */
  lemma {:induction false} InsertCommasGroups(d: string)
    requires AllDigits(d)
    ensures InsertCommas(d) == Group(d)
    decreases |d|
  {
    if |d| <= 3 {
      CommaInDigits(d, |d|);
      ScanShort(d, |d|);
      assert d[..|d|] == d;
    } else {
      var t := d[..|d| - 3];
      DigitsSlice(d, 0, |d| - 3);
      ScanLastGroup(d);
      ScanPrefix(d, |d| - 3);
      InsertCommasGroups(t);
      CommaInDigits(t, |t|);
    }
  }

  lemma {:induction false} RemoveCommasAppend(a: string, b: string)
    ensures RemoveCommas(a + b) == RemoveCommas(a) + RemoveCommas(b)
    decreases |b|
  {
    if b == [] {
      assert a + b == a;
    } else {
      assert (a + b)[..|a + b| - 1] == a + b[..|b| - 1];
      RemoveCommasAppend(a, b[..|b| - 1]);
    }
  }

  lemma {:induction false} RemoveCommasDigits(d: string)
    requires AllDigits(d)
    ensures RemoveCommas(d) == d
    decreases |d|
  {
    if d != [] {
      var t := d[..|d| - 1];
      DigitsSlice(d, 0, |d| - 1);
      RemoveCommasDigits(t);
      assert d == t + [d[|d| - 1]];
    }
  }

  /** Taking the commas out of two parts joined by a comma joins the parts with their commas taken out. */
  lemma RemoveCommasJoin(g: string, last: string)
    requires AllDigits(last)
    ensures RemoveCommas(g + [','] + last) == RemoveCommas(g) + last
  {
    var h := g + [','];
    RemoveCommasAppend(h, last);
    RemoveCommasAppend(g, [',']);
    RemoveCommasDigits(last);
    assert RemoveCommas([',']) == [] by {
      assert [','][..0] == [];
    }
    assert RemoveCommas(h) == RemoveCommas(g);
  }

  /** The grouping keeps the digits and their order: taking the commas out gives them back. */
  lemma {:induction false} GroupDigits(d: string)
    requires AllDigits(d)
    ensures RemoveCommas(Group(d)) == d
    decreases |d|
  {
    if |d| <= 3 {
      RemoveCommasDigits(d);
    } else {
      var t, last := d[..|d| - 3], d[|d| - 3..];
      DigitsSlice(d, 0, |d| - 3);
      DigitsSlice(d, |d| - 3, |d|);
      GroupDigits(t);
      RemoveCommasJoin(Group(t), last);
      assert d == t + last;
    }
  }

  lemma ShiftByGroup(x: int)
    ensures (x + 4) % 4 == x % 4 && (x + 3) / 3 == x / 3 + 1
  {
  }

  /** Every fourth position from the right end is a comma: a shape that appending `,` and three digits keeps. */
  predicate CommasEveryFourth(r: string) {
    |r| % 4 != 0 && forall i :: 0 <= i < |r| ==> (r[i] == ',' <==> (|r| - i) % 4 == 0)
  }

  lemma CommasEveryFourthExtend(g: string, last: string)
    requires CommasEveryFourth(g) && |last| == 3 && AllDigits(last)
    ensures CommasEveryFourth(g + [','] + last)
  {
    var r := g + [','] + last;
    ShiftByGroup(|g|);
    forall i | 0 <= i < |r| ensures r[i] == ',' <==> (|r| - i) % 4 == 0 {
      if i < |g| {
        assert r[i] == g[i];
        ShiftByGroup(|g| - i);
      } else if i > |g| {
        assert r[i] == last[i - |g| - 1];
      }
    }
  }

  /**
   * The grouping adds one comma per full group of three after the first
   * digit and puts a comma at exactly every fourth position counted from the
   * right end, so the first group has one to three digits and every later one three.
   */
  lemma {:induction false} GroupCommas(d: string)
    requires AllDigits(d) && d != []
    ensures |Group(d)| == |d| + (|d| - 1) / 3
    ensures CommasEveryFourth(Group(d))
    decreases |d|
  {
    if |d| > 3 {
      var t, last := d[..|d| - 3], d[|d| - 3..];
      DigitsSlice(d, 0, |d| - 3);
      DigitsSlice(d, |d| - 3, |d|);
      GroupCommas(t);
      var g := Group(t);
      assert Group(d) == g + [','] + last;
      CommasEveryFourthExtend(g, last);
      ShiftByGroup(|t| - 1);
    }
  }

  /**
   * For a non-negative integer the output reads back to its decimal digits
   * once the commas are removed, and every comma sits exactly where a group
   * of three digits starts, counted from the right: the groups after the
   * first have three digits and the first has one to three.
   */
  lemma FormatNumberGroups(num: nat)
    ensures FormatNumber(num) == Group(NatToString(num))
    ensures RemoveCommas(FormatNumber(num)) == NatToString(num)
    ensures CommasEveryFourth(FormatNumber(num))
  {
    var d := NatToString(num);
    assert AllDigits(d);
    FormatNumberIsGroup(num);
    GroupDigits(d);
    GroupCommas(d);
  }

  lemma FormatNumberIsGroup(num: nat)
    ensures FormatNumber(num) == Group(NatToString(num))
  {
    var d := NatToString(num);
    assert IntToString(num) == d;
    InsertCommasGroups(d);
  }

  /** A number below 1000 is printed as it is. */
  lemma FormatNumberSmall(num: nat)
    requires num < 1000
    ensures FormatNumber(num) == NatToString(num)
  {
    var d := NatToString(num);
    assert |d| <= 3 by {
      if num >= 10 {
        assert |d| == |NatToString(num / 10)| + 1;
        if num >= 100 {
          assert |NatToString(num / 10)| == |NatToString(num / 100)| + 1;
        }
      }
    }
    assert IntToString(num) == d;
    InsertCommasGroups(d);
  }

  /** In `"-" + d` no comma goes before or right after the sign; elsewhere the digits decide. */
  lemma CommaInSigned(d: string, q: nat)
    requires AllDigits(d) && d != [] && q <= |d| + 1
    ensures CommaAt("-" + d, q) <==> 1 < q <= |d| && (|d| + 1 - q) % 3 == 0
  {
    var s := "-" + d;
    forall i | 1 <= i < |s| ensures IsDigit(s[i]) {
      assert s[i] == d[i - 1];
    }
    if q == 0 {
      DigitRunExact(s, 0, 0);
    } else {
      DigitRunExact(s, q, |s| - q);
      if q == 1 {
        assert !NotBoundary(s, 1);
      }
    }
  }

  lemma {:induction false} ScanSigned(d: string, q: nat)
    requires AllDigits(d) && d != [] && q <= |d|
    ensures Scan("-" + d, q + 1) == "-" + Scan(d, q)
    decreases q
  {
    var s := "-" + d;
    CommaInSigned(d, q);
    if q == 0 {
      assert Scan(s, 1) == Scan(s, 0) + [s[0]];
    } else {
      ScanSigned(d, q - 1);
      CommaInDigits(d, q - 1);
      assert s[q] == d[q - 1];
    }
  }

  /** A negative number is formatted as a minus sign before the formatted magnitude. */
  lemma FormatNumberNegative(num: nat)
    requires num > 0
    ensures FormatNumber(-(num as int)) == "-" + FormatNumber(num)
  {
    var d := NatToString(num);
    assert IntToString(-(num as int)) == "-" + d;
    assert IntToString(num) == d;
    ScanSigned(d, |d|);
    CommaInDigits(d, |d|);
    CommaInSigned(d, |d| + 1);
  }
}
