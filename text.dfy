/** The pieces of Rust's `str` API that the client uses (`starts_with`,
    `ends_with`, `trim_start_matches`, `trim_end_matches`, `split_once`,
    `rsplit_once`), decimal rendering of integers as done by `format!`,
    and the two decimal parsers the code relies on: `u16::from_str` and
    the numeric fields of a semantic version. Strings are `seq<char>`. */
module Text {
  import opened Wrappers

  predicate IsDigit(c: char) { '0' <= c <= '9' }

  function DigitValue(c: char): (d: nat)
    requires IsDigit(c)
    ensures d < 10
  {
    (c as int) - ('0' as int)
  }

  function DigitChar(d: nat): (c: char)
    requires d < 10
    ensures IsDigit(c) && DigitValue(c) == d
  {
    (('0' as int) + d) as char
  }

  predicate AllDigits(s: string) { forall i :: 0 <= i < |s| ==> IsDigit(s[i]) }

  /** The value of a string of decimal digits, most significant digit first. */
  function DecimalValue(s: string): nat
    requires AllDigits(s)
  {
    if s == [] then 0 else DecimalValue(s[..|s| - 1]) * 10 + DigitValue(s[|s| - 1])
  }

  /** A non-empty digit string without a superfluous leading zero: the form
      in which `format!` prints an integer. */
  predicate Canonical(s: string)
  {
    |s| > 0 && AllDigits(s) && (s[0] == '0' ==> |s| == 1)
  }

  /** `format!("{n}")` for a non-negative integer. */
  function NatToString(n: nat): (s: string)
    ensures Canonical(s) && DecimalValue(s) == n
  {
    if n < 10 then [DigitChar(n)]
    else
      var t := NatToString(n / 10);
      var s := t + [DigitChar(n % 10)];
      assert s[..|s| - 1] == t;
      assert |t| == 1 ==> t[..0] == [] && DecimalValue(t) == DigitValue(t[0]);
      s
  }

  lemma {:induction false} LeadingNonZeroPositive(s: string)
    requires |s| > 0 && AllDigits(s) && s[0] != '0'
    ensures DecimalValue(s) > 0
  {
    if |s| > 1 {
      var t := s[..|s| - 1];
      assert t[0] == s[0];
      LeadingNonZeroPositive(t);
    }
  }

  /** Rendering and reading back are inverse on canonical digit strings:
      every canonical string is the rendering of its own value. */
  lemma {:induction false} CanonicalRoundTrip(s: string)
    requires Canonical(s)
    ensures NatToString(DecimalValue(s)) == s
  {
    var t := s[..|s| - 1];
    var d := DigitValue(s[|s| - 1]);
    assert DigitChar(d) == s[|s| - 1];
    assert s == t + [s[|s| - 1]];
    if |s| == 1 {
      assert t == [];
    } else {
      assert t[0] == s[0];
      LeadingNonZeroPositive(t);
      CanonicalRoundTrip(t);
      assert DecimalValue(s) == DecimalValue(t) * 10 + d;
      NatToStringAppend(DecimalValue(t), d);
    }
  }

  /** Rendering `10 * a + d` for a positive `a` appends the digit `d`. */
  lemma NatToStringAppend(a: nat, d: nat)
    requires a > 0 && d < 10
    ensures NatToString(a * 10 + d) == NatToString(a) + [DigitChar(d)]
  {
    var n := a * 10 + d;
    assert n / 10 == a && n % 10 == d;
  }

  /** `str::parse::<uN>()` where `max` is `uN::MAX`: an optional single
      leading `+`, then one or more ASCII digits (leading zeros allowed),
      whose value must not exceed `max`. A lone `+`, an empty string, a
      `-` sign or any other character is an error. */
  function ParseRustUnsigned(s: string, max: nat): (r: Option<nat>)
    ensures r.Some? ==> r.value <= max
    ensures r.Some? <==>
              var digits := if |s| > 0 && s[0] == '+' then s[1..] else s;
              |digits| > 0 && AllDigits(digits) && DecimalValue(digits) <= max
    ensures r.Some? ==> r.value == DecimalValue(if |s| > 0 && s[0] == '+' then s[1..] else s)
  {
    var digits := if |s| > 0 && s[0] == '+' then s[1..] else s;
    if |digits| > 0 && AllDigits(digits) && DecimalValue(digits) <= max
    then Some(DecimalValue(digits))
    else None
  }

  lemma ParseRustUnsignedOfDecimal(n: nat, max: nat)
    requires n <= max
    ensures ParseRustUnsigned(NatToString(n), max) == Some(n)
    ensures ParseRustUnsigned("+" + NatToString(n), max) == Some(n)
  {
    assert ("+" + NatToString(n))[1..] == NatToString(n);
  }

  /** `k` zero digits. */
  function Zeros(k: nat): (z: string)
    ensures |z| == k && AllDigits(z)
  {
    seq(k, _ => '0')
  }

  /** Zero digits in front do not change a value. */
  lemma {:induction false} DecimalValueLeadingZeros(k: nat, s: string)
    requires AllDigits(s)
    decreases |s|, k
    ensures AllDigits(Zeros(k) + s) && DecimalValue(Zeros(k) + s) == DecimalValue(s)
  {
    if s == [] {
      assert Zeros(k) + s == Zeros(k);
      if k > 0 {
        assert Zeros(k) == Zeros(k - 1) + ['0'];
        DecimalValueLeadingZeros(k - 1, s);
        assert Zeros(k - 1) + s == Zeros(k - 1);
        DecimalValueSnoc(Zeros(k - 1), '0');
      }
    } else {
      var init := s[..|s| - 1];
      assert s == init + [s[|s| - 1]];
      assert Zeros(k) + s == (Zeros(k) + init) + [s[|s| - 1]];
      DecimalValueLeadingZeros(k, init);
      DecimalValueSnoc(Zeros(k) + init, s[|s| - 1]);
      DecimalValueSnoc(init, s[|s| - 1]);
    }
  }

  /** Leading zeros and a `+` sign are accepted: any number of zeros, with
      or without a sign, in front of a number's text parse to that number. */
  lemma ParseRustUnsignedPadded(k: nat, n: nat, max: nat)
    requires n <= max
    ensures ParseRustUnsigned(Zeros(k) + NatToString(n), max) == Some(n)
    ensures ParseRustUnsigned("+" + Zeros(k) + NatToString(n), max) == Some(n)
  {
    var digits := Zeros(k) + NatToString(n);
    DecimalValueLeadingZeros(k, NatToString(n));
    assert "+" + Zeros(k) + NatToString(n) == "+" + digits;
    SignedDigits(digits, max);
  }

  /** A digit string, with or without a `+` in front, parses to its value. */
  lemma SignedDigits(d: string, max: nat)
    requires |d| > 0 && AllDigits(d) && DecimalValue(d) <= max
    ensures ParseRustUnsigned(d, max) == Some(DecimalValue(d))
    ensures ParseRustUnsigned("+" + d, max) == Some(DecimalValue(d))
  {
    assert ("+" + d)[1..] == d;
    assert IsDigit(d[0]);
  }

  /** One more digit at the end multiplies the value by ten and adds it. */
  lemma DecimalValueSnoc(s: string, c: char)
    requires AllDigits(s) && IsDigit(c)
    ensures AllDigits(s + [c]) && DecimalValue(s + [c]) == DecimalValue(s) * 10 + DigitValue(c)
  {
    assert (s + [c])[..|s|] == s;
  }

  /** A number field of a semantic version: canonical digits (no leading
      zero) whose value fits in `max`. */
  function ParseCanonical(s: string, max: nat): (r: Option<nat>)
    ensures r.Some? <==> Canonical(s) && DecimalValue(s) <= max
    ensures r.Some? ==> r.value <= max && NatToString(r.value) == s
  {
    if Canonical(s) && DecimalValue(s) <= max then
      CanonicalRoundTrip(s);
      Some(DecimalValue(s))
    else None
  }

  predicate StartsWith(s: string, p: string) { |p| <= |s| && s[..|p|] == p }

  predicate EndsWith(s: string, p: string) { |p| <= |s| && s[|s| - |p|..] == p }

  /** `s.trim_start_matches(p)`: remove `p` repeatedly from the front. */
  function TrimStartMatches(s: string, p: string): (r: string)
    decreases |s|
    ensures |r| <= |s| && r == s[|s| - |r|..]
    ensures |p| > 0 ==> !StartsWith(r, p)
    ensures !StartsWith(s, p) ==> r == s
  {
    if |p| > 0 && StartsWith(s, p) then TrimStartMatches(s[|p|..], p) else s
  }

  /** `s.trim_end_matches(p)`: remove `p` repeatedly from the back. */
  function TrimEndMatches(s: string, p: string): (r: string)
    decreases |s|
    ensures |r| <= |s| && r == s[..|r|]
    ensures |p| > 0 ==> !EndsWith(r, p)
    ensures !EndsWith(s, p) ==> r == s
  {
    if |p| > 0 && EndsWith(s, p) then TrimEndMatches(s[..|s| - |p|], p) else s
  }

  lemma TrimStartMatchesPrefix(p: string, s: string)
    requires |p| > 0
    ensures TrimStartMatches(p + s, p) == TrimStartMatches(s, p)
  {
    assert (p + s)[..|p|] == p;
    assert (p + s)[|p|..] == s;
  }

  lemma TrimEndMatchesSuffix(s: string, p: string)
    requires |p| > 0
    ensures TrimEndMatches(s + p, p) == TrimEndMatches(s, p)
  {
    assert (s + p)[|s + p| - |p|..] == p;
    assert (s + p)[..|s + p| - |p|] == s;
  }

  /** Position of the first occurrence of `c`. */
  function IndexOf(s: string, c: char): (r: Option<nat>)
    ensures r.None? <==> c !in s
    ensures r.Some? ==> r.value < |s| && s[r.value] == c && c !in s[..r.value]
  {
    if |s| == 0 then None
    else if s[0] == c then Some(0)
    else match IndexOf(s[1..], c)
      case None => None
      case Some(i) => assert s[..i + 1] == [s[0]] + s[1..][..i]; Some(i + 1)
  }

  /** Position of the last occurrence of `c`. */
  function LastIndexOf(s: string, c: char): (r: Option<nat>)
    ensures r.None? <==> c !in s
    ensures r.Some? ==> r.value < |s| && s[r.value] == c && c !in s[r.value + 1..]
  {
    if |s| == 0 then None
    else if s[|s| - 1] == c then Some(|s| - 1)
    else
      var t := s[..|s| - 1];
      assert s == t + [s[|s| - 1]];
      match LastIndexOf(t, c)
      case None => None
      case Some(i) => assert s[i + 1..] == t[i + 1..] + [s[|s| - 1]]; Some(i)
  }

  /** `s.split_once(c)`: the text before and after the first `c`. */
  function SplitOnce(s: string, c: char): (r: Option<(string, string)>)
    ensures r.None? <==> c !in s
    ensures r.Some? ==> s == r.value.0 + [c] + r.value.1 && c !in r.value.0
  {
    match IndexOf(s, c)
    case None => None
    case Some(i) => assert s == s[..i] + [c] + s[i + 1..]; Some((s[..i], s[i + 1..]))
  }

  /** `s.rsplit_once(c)`: the text before and after the last `c`. */
  function RSplitOnce(s: string, c: char): (r: Option<(string, string)>)
    ensures r.None? <==> c !in s
    ensures r.Some? ==> s == r.value.0 + [c] + r.value.1 && c !in r.value.1
  {
    match LastIndexOf(s, c)
    case None => None
    case Some(i) => assert s == s[..i] + [c] + s[i + 1..]; Some((s[..i], s[i + 1..]))
  }

  /** Splitting at the first `c` recovers the two halves of a join whose
      left half holds no `c`. */
  lemma SplitOnceOfJoin(a: string, c: char, b: string)
    requires c !in a
    ensures SplitOnce(a + [c] + b, c) == Some((a, b))
  {
    var s := a + [c] + b;
    assert s[|a|] == c;
    var i := IndexOf(s, c).value;
    assert forall j :: 0 <= j < |a| ==> s[j] == a[j];
    assert forall j :: 0 <= j < i ==> s[..i][j] == s[j];
    assert i == |a|;
    assert s[..|a|] == a && s[|a| + 1..] == b;
  }

  /** Splitting at the last `c` recovers the two halves of a join whose
      right half holds no `c`. */
  lemma RSplitOnceOfJoin(a: string, c: char, b: string)
    requires c !in b
    ensures RSplitOnce(a + [c] + b, c) == Some((a, b))
  {
    var s := a + [c] + b;
    assert s[|a|] == c;
    var i := LastIndexOf(s, c).value;
    assert forall j :: |a| < j < |s| ==> s[j] == b[j - |a| - 1];
    assert forall j :: i < j < |s| ==> s[i + 1..][j - i - 1] == s[j];
    assert i == |a|;
    assert s[..|a|] == a && s[|a| + 1..] == b;
  }

  /** A digit string holds no character that is not a digit. */
  lemma DigitsExclude(s: string, c: char)
    requires AllDigits(s) && !IsDigit(c)
    ensures c !in s
  {
  }
}
