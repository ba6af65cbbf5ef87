/**
  The handful of Python `str` operations the bot builds on, over `string` (a `seq<char>`):
  `s.split(c)` and `c.join(parts)` for a one-character separator, `m in s`, `s.split(m)[0]`
  and `s.split(m)[1]` for a marker `m`, `str.strip()`, `str(n)`, `int(s)` and `float(s)`.
*/
module Strings {
  import opened Wrappers

  // ---------------------------------------------------------------------------
  // Splitting on and joining with a one-character separator
  // ---------------------------------------------------------------------------

  /** `s.split(c)`: the fields of `s` between the occurrences of `c`, never an empty list. */
  function Split(s: string, c: char): (parts: seq<string>)
    ensures |parts| >= 1
    ensures forall i :: 0 <= i < |parts| ==> c !in parts[i]
  {
    if |s| == 0 then [""]
    else
      var rest := Split(s[1..], c);
      if s[0] == c then [""] + rest
      else [[s[0]] + rest[0]] + rest[1..]
  }

  /** `c.join(parts)`: the parts with one `c` between neighbours. */
  function Join(parts: seq<string>, c: char): string
  {
    if |parts| == 0 then ""
    else if |parts| == 1 then parts[0]
    else parts[0] + [c] + Join(parts[1..], c)
  }

  /** Joining the fields of a split with the same separator gives back the original text. */
  lemma {:induction false} JoinSplit(s: string, c: char)
    ensures Join(Split(s, c), c) == s
  {
    if |s| > 0 {
      var rest := Split(s[1..], c);
      JoinSplit(s[1..], c);
      if s[0] == c {
        assert Split(s, c) == [""] + rest;
        assert Join([""] + rest, c) == "" + [c] + Join(rest, c);
        assert [c] + s[1..] == s;
      } else {
        var parts := [[s[0]] + rest[0]] + rest[1..];
        assert Split(s, c) == parts;
        if |rest| == 1 {
          assert Join(parts, c) == [s[0]] + rest[0];
          assert [s[0]] + s[1..] == s;
        } else {
          assert parts[1..] == rest[1..];
          assert Join(parts, c) == [s[0]] + rest[0] + [c] + Join(rest[1..], c);
          assert Join(rest, c) == rest[0] + [c] + Join(rest[1..], c);
          assert [s[0]] + s[1..] == s;
        }
      }
    }
  }

  /** The number of occurrences of `c` in `s`. */
  function Count(s: string, c: char): nat
  {
    if |s| == 0 then 0 else (if s[0] == c then 1 else 0) + Count(s[1..], c)
  }

  lemma {:induction false} CountConcat(a: string, b: string, c: char)
    ensures Count(a + b, c) == Count(a, c) + Count(b, c)
    decreases |a|
  {
    if |a| == 0 {
      assert a + b == b;
    } else {
      assert (a + b)[0] == a[0] && (a + b)[1..] == a[1..] + b;
      CountConcat(a[1..], b, c);
    }
  }

  lemma {:induction false} CountPositive(s: string, c: char)
    requires c in s
    ensures Count(s, c) > 0
    decreases |s|
  {
    if s[0] != c {
      assert c in s[1..];
      CountPositive(s[1..], c);
    }
  }

  /** `s.split(c)` has one field more than `s` has separators. */
  lemma {:induction false} SplitLength(s: string, c: char)
    ensures |Split(s, c)| == Count(s, c) + 1
    decreases |s|
  {
    if |s| > 0 {
      SplitLength(s[1..], c);
    }
  }

  /** A text without the separator is a single field. */
  lemma {:induction false} SplitWithoutSeparator(w: string, c: char)
    requires c !in w
    ensures Split(w, c) == [w]
  {
    if |w| > 0 {
      assert c !in w[1..] by {
        forall i | 0 <= i < |w[1..]| ensures w[1..][i] != c { assert w[1..][i] == w[i + 1]; }
      }
      SplitWithoutSeparator(w[1..], c);
      assert [w[0]] + w[1..] == w;
    }
  }

  /** The first field of `w + [c] + r` is `w` when `w` has no separator. */
  lemma {:induction false} SplitAfterField(w: string, c: char, r: string)
    requires c !in w
    ensures Split(w + [c] + r, c) == [w] + Split(r, c)
  {
    var s := w + [c] + r;
    if |w| == 0 {
      assert s[0] == c && s[1..] == r;
    } else {
      assert c !in w[1..] by {
        forall i | 0 <= i < |w[1..]| ensures w[1..][i] != c { assert w[1..][i] == w[i + 1]; }
      }
      SplitAfterField(w[1..], c, r);
      assert s[0] == w[0] && s[1..] == w[1..] + [c] + r;
      assert [w[0]] + w[1..] == w;
    }
  }

  /** Splitting a join of separator-free parts gives back exactly those parts. */
  lemma {:induction false} SplitJoin(parts: seq<string>, c: char)
    requires |parts| >= 1
    requires forall i :: 0 <= i < |parts| ==> c !in parts[i]
    ensures Split(Join(parts, c), c) == parts
  {
    if |parts| == 1 {
      SplitWithoutSeparator(parts[0], c);
    } else {
      SplitJoin(parts[1..], c);
      SplitAfterField(parts[0], c, Join(parts[1..], c));
      assert [parts[0]] + parts[1..] == parts;
    }
  }

  // ---------------------------------------------------------------------------
  // Finding a marker: `m in s`, `s.split(m)[0]`, `s.split(m)[1]`
  // ---------------------------------------------------------------------------

  /** `m` occurs in `s` starting at index `i`. */
  predicate OccursAt(s: string, m: string, i: int)
  {
    0 <= i && i + |m| <= |s| && s[i..i + |m|] == m
  }

  /** `s.find(m)` for a non-empty marker, `None` for Python's `-1`. */
  function IndexOf(s: string, m: string): (r: Option<nat>)
    requires |m| > 0
    decreases |s|
  {
    if |s| < |m| then None
    else if s[..|m|] == m then Some(0)
    else match IndexOf(s[1..], m)
      case None => None
      case Some(k) => Some(k + 1)
  }

  /** `IndexOf` finds the first occurrence, and finds one whenever there is one. */
  lemma {:induction false} IndexOfFirst(s: string, m: string)
    requires |m| > 0
    ensures IndexOf(s, m).Some? ==> OccursAt(s, m, IndexOf(s, m).value)
    ensures IndexOf(s, m).Some? ==> forall j :: 0 <= j < IndexOf(s, m).value ==> !OccursAt(s, m, j)
    ensures IndexOf(s, m).None? ==> forall j :: !OccursAt(s, m, j)
    decreases |s|
  {
    if |s| < |m| {
    } else if s[..|m|] == m {
      assert s[0..0 + |m|] == s[..|m|];
    } else {
      IndexOfFirst(s[1..], m);
      assert !OccursAt(s, m, 0) by { assert s[0..0 + |m|] == s[..|m|]; }
      forall j | j > 0 ensures OccursAt(s, m, j) <==> OccursAt(s[1..], m, j - 1) {
        if j + |m| <= |s| {
          var here, there := s[j..j + |m|], s[1..][j - 1..j - 1 + |m|];
          forall k | 0 <= k < |m| ensures here[k] == there[k] { }
          assert here == there;
        }
      }
      if IndexOf(s, m).Some? {
        var k := IndexOf(s[1..], m).value;
        assert OccursAt(s[1..], m, k);
      }
    }
  }

  /** Python's `m in s`. */
  predicate Contains(s: string, m: string)
    requires |m| > 0
  {
    IndexOf(s, m).Some?
  }

  /** `Contains` holds exactly when the marker occurs somewhere. */
  lemma ContainsIff(s: string, m: string)
    requires |m| > 0
    ensures Contains(s, m) <==> exists j :: OccursAt(s, m, j)
  {
    IndexOfFirst(s, m);
  }

  /** An occurrence in a prefix is an occurrence in the whole text. */
  lemma OccursAtExtends(p: string, s: string, m: string, j: int)
    requires p <= s
    ensures OccursAt(p, m, j) ==> OccursAt(s, m, j)
  {
    if OccursAt(p, m, j) {
      assert s[j..j + |m|] == p[j..j + |m|];
    }
  }

  /** An occurrence in a text that ends within a prefix is an occurrence in the prefix. */
  lemma OccursAtShrinks(p: string, s: string, m: string, j: int)
    requires p <= s && j + |m| <= |p|
    ensures OccursAt(s, m, j) ==> OccursAt(p, m, j)
  {
    if OccursAt(s, m, j) {
      assert s[j..j + |m|] == p[j..j + |m|];
    }
  }

  /** A prefix of a text that does not contain `m` does not contain it either. */
  lemma NotContainsPrefix(p: string, s: string, m: string)
    requires |m| > 0 && p <= s && !Contains(s, m)
    ensures !Contains(p, m)
  {
    ContainsIff(p, m);
    ContainsIff(s, m);
    forall j ensures OccursAt(p, m, j) ==> OccursAt(s, m, j) {
      OccursAtExtends(p, s, m, j);
    }
  }

  /** `s.split(m)[0]`: the text before the first occurrence of `m`, or all of `s`. */
  function BeforeFirst(s: string, m: string): (r: string)
    requires |m| > 0
    ensures r <= s
    ensures !Contains(r, m)
    ensures Contains(s, m) <==> r != s
    ensures r != s ==> OccursAt(s, m, |r|)
    ensures forall j :: 0 <= j < |r| ==> !OccursAt(s, m, j)
  {
    IndexOfFirst(s, m);
    match IndexOf(s, m)
    case None => s
    case Some(i) =>
      assert !Contains(s[..i], m) by {
        IndexOfFirst(s[..i], m);
        if IndexOf(s[..i], m).Some? {
          var j := IndexOf(s[..i], m).value;
          assert s[..i][j..j + |m|] == s[j..j + |m|];
          assert OccursAt(s, m, j);
        }
      }
      s[..i]
  }

  /** The text after the first occurrence of `m`, for an `s` that contains it. */
  function AfterFirst(s: string, m: string): (r: string)
    requires |m| > 0 && Contains(s, m)
    ensures s == BeforeFirst(s, m) + m + r
  {
    IndexOfFirst(s, m);
    var i := IndexOf(s, m).value;
    assert s == s[..i] + s[i..i + |m|] + s[i + |m|..];
    s[i + |m|..]
  }

  /** `s.split(m)[1]`: the second field, from the end of the first occurrence of `m` to the
      start of the next one, or to the end of `s` when there is no next one. */
  function SecondField(s: string, m: string): (r: string)
    requires |m| > 0 && Contains(s, m)
    ensures r <= AfterFirst(s, m) && !Contains(r, m)
    ensures Contains(AfterFirst(s, m), m) <==> r != AfterFirst(s, m)
    ensures r != AfterFirst(s, m) ==> OccursAt(AfterFirst(s, m), m, |r|)
    ensures forall j :: 0 <= j < |r| ==> !OccursAt(AfterFirst(s, m), m, j)
  {
    BeforeFirst(AfterFirst(s, m), m)
  }

  // ---------------------------------------------------------------------------
  // `str.strip()`
  // ---------------------------------------------------------------------------

  /** The characters for which Python's `str.isspace()` holds. */
  predicate IsSpace(ch: char)
  {
    || ch == ' ' || ch == '\t' || ch == '\n' || ch == '\r' || ch == '\U{000B}' || ch == '\U{000C}'
    || ('\U{001C}' <= ch <= '\U{001F}') || ch == '\U{0085}' || ch == '\U{00A0}' || ch == '\U{1680}'
    || ('\U{2000}' <= ch <= '\U{200A}') || ch == '\U{2028}' || ch == '\U{2029}' || ch == '\U{202F}'
    || ch == '\U{205F}' || ch == '\U{3000}'
  }

  /** The end of the run of whitespace starting at `i`. */
  function SpaceRunEnd(s: string, i: nat): (k: nat)
    requires i <= |s|
    ensures i <= k <= |s|
    ensures forall j :: i <= j < k ==> IsSpace(s[j])
    ensures k < |s| ==> !IsSpace(s[k])
    decreases |s| - i
  {
    if i < |s| && IsSpace(s[i]) then SpaceRunEnd(s, i + 1) else i
  }

  /** The start of the run of whitespace ending at `j`, going no further back than `lo`. */
  function SpaceRunStart(s: string, lo: nat, j: nat): (k: nat)
    requires lo <= j <= |s|
    ensures lo <= k <= j
    ensures forall m :: k <= m < j ==> IsSpace(s[m])
    ensures k > lo ==> !IsSpace(s[k - 1])
    decreases j
  {
    if j > lo && IsSpace(s[j - 1]) then SpaceRunStart(s, lo, j - 1) else j
  }

  /** Where the stripped text starts in the original: the number of leading blanks. */
  function StripStart(s: string): nat
  {
    SpaceRunEnd(s, 0)
  }

  /** Where the stripped text ends in the original. */
  function StripEnd(s: string): nat
    requires StripStart(s) <= |s|
  {
    SpaceRunStart(s, StripStart(s), |s|)
  }

  /** `s.strip()`: the piece of `s` left when the whitespace at both ends is removed. */
  function Strip(s: string): (r: string)
    ensures StripStart(s) <= StripEnd(s) <= |s| && r == s[StripStart(s)..StripEnd(s)]
  {
    s[StripStart(s)..StripEnd(s)]
  }

  /** Only whitespace is removed, and all of it at both ends: the result neither starts nor ends
      with whitespace. */
  lemma StripTrims(s: string)
    ensures forall i :: 0 <= i < StripStart(s) ==> IsSpace(s[i])
    ensures forall i :: StripEnd(s) <= i < |s| ==> IsSpace(s[i])
    ensures |Strip(s)| > 0 ==> !IsSpace(Strip(s)[0]) && !IsSpace(Strip(s)[|Strip(s)| - 1])
  {
    var a, b := StripStart(s), StripEnd(s);
    if a < b {
      assert Strip(s)[0] == s[a];
      assert Strip(s)[|Strip(s)| - 1] == s[b - 1];
    }
  }

  // ---------------------------------------------------------------------------
  // Decimal numbers: `str(n)`, `int(s)`, `float(s)`
  // ---------------------------------------------------------------------------

  predicate IsDigit(ch: char) { '0' <= ch <= '9' }

  predicate AllDigits(s: string) { forall i :: 0 <= i < |s| ==> IsDigit(s[i]) }

  function DigitChar(d: nat): (ch: char)
    requires d < 10
    ensures IsDigit(ch)
  {
    ('0' as int + d) as char
  }

  /** The value of a string of decimal digits, read most significant first. */
  function DigitsValue(s: string): nat
    requires AllDigits(s)
  {
    if |s| == 0 then 0
    else DigitsValue(s[..|s| - 1]) * 10 + (s[|s| - 1] as int - '0' as int)
  }

  /** `str(n)` for a natural number: its decimal digits without leading zeros. */
  function NatToString(n: nat): (s: string)
    ensures |s| >= 1 && AllDigits(s)
  {
    if n < 10 then [DigitChar(n)]
    else NatToString(n / 10) + [DigitChar(n % 10)]
  }

  /** `str(n)` for any integer. */
  function IntToString(n: int): (s: string)
    ensures |s| >= 1
    ensures forall i :: 0 <= i < |s| ==> IsDigit(s[i]) || s[i] == '-'
  {
    if n < 0 then "-" + NatToString(-n) else NatToString(n)
  }

  /** `int(s)` on an optional sign followed by ASCII digits; `None` where Python raises `ValueError`. */
  function ParseInt(s: string): Option<int>
  {
    if |s| > 0 && (s[0] == '-' || s[0] == '+') then
      if |s| > 1 && AllDigits(s[1..]) then
        Some(if s[0] == '-' then -(DigitsValue(s[1..]) as int) else DigitsValue(s[1..]))
      else None
    else if |s| > 0 && AllDigits(s) then Some(DigitsValue(s))
    else None
  }

  /** Reading back the digits written for `n` gives `n`. */
  lemma {:induction false} DigitsRoundTrip(n: nat)
    ensures DigitsValue(NatToString(n)) == n
  {
    var s := NatToString(n);
    if n >= 10 {
      DigitsRoundTrip(n / 10);
      assert s[..|s| - 1] == NatToString(n / 10);
    }
  }

  /** `int(str(n)) == n`: the decimal text of an integer parses back to it. */
  lemma ParseIntRoundTrip(n: int)
    ensures ParseInt(IntToString(n)) == Some(n)
  {
    if n < 0 {
      var digits := NatToString(-n);
      var s := "-" + digits;
      assert s == IntToString(n) && s[0] == '-' && s[1..] == digits;
      DigitsRoundTrip(-n);
    } else {
      var s := NatToString(n);
      assert IsDigit(s[0]);
      DigitsRoundTrip(n);
    }
  }

  function Pow10(k: nat): (p: nat)
    ensures p >= 1
  {
    if k == 0 then 1 else 10 * Pow10(k - 1)
  }

  /** `float(s)` on an optional sign, digits and an optional fraction (`"12"`, `"-0.5"`, `"3."`, `".25"`). */
  function ParseDecimal(s: string): Option<real>
  {
    var negative := |s| > 0 && s[0] == '-';
    var body := if |s| > 0 && (s[0] == '-' || s[0] == '+') then s[1..] else s;
    var sign := if negative then -1.0 else 1.0;
    var fields := Split(body, '.');
    if |fields| == 1 then
      if |body| > 0 && AllDigits(body) then Some(sign * DigitsValue(body) as real) else None
    else if |fields| == 2 && AllDigits(fields[0]) && AllDigits(fields[1]) && |fields[0]| + |fields[1]| > 0 then
      Some(sign * (DigitsValue(fields[0]) as real + DigitsValue(fields[1]) as real / Pow10(|fields[1]|) as real))
    else None
  }

  /** Every text `int()` accepts, `float()` accepts with the same value. */
  lemma ParseDecimalExtendsParseInt(s: string)
    requires ParseInt(s).Some?
    ensures ParseDecimal(s) == Some(ParseInt(s).value as real)
  {
    var body := if s[0] == '-' || s[0] == '+' then s[1..] else s;
    assert forall i | 0 <= i < |body| :: body[i] != '.';
    SplitWithoutSeparator(body, '.');
  }
}
