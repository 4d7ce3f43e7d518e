/** Strings, decimal integers and 64-bit integers as the Go standard library treats them. */
module Text {

  const MIN_INT64: int := -0x8000_0000_0000_0000
  const MAX_INT64: int := 0x7fff_ffff_ffff_ffff
  const TWO_64: int := 0x1_0000_0000_0000_0000

  predicate InInt64(x: int) {
    MIN_INT64 <= x <= MAX_INT64
  }

  /** Two's complement: what an int64 addition or multiplication leaves of `x`. */
  function Wrap64(x: int): (r: int)
    ensures InInt64(r) && (x - r) % TWO_64 == 0
    ensures InInt64(x) <==> r == x
  {
    (x - MIN_INT64) % TWO_64 + MIN_INT64
  }

  /** `time.Time.Sub` clamps to the range of a Duration instead of wrapping. */
  function Saturate64(x: int): (r: int)
    ensures InInt64(r)
    ensures InInt64(x) ==> r == x
    ensures x > MAX_INT64 ==> r == MAX_INT64
    ensures x < MIN_INT64 ==> r == MIN_INT64
  {
    if x < MIN_INT64 then MIN_INT64 else if x > MAX_INT64 then MAX_INT64 else x
  }

  // ---------------------------------------------------------------- trimming and case

  predicate IsSpace(c: char) {
    c == ' ' || '\t' <= c <= '\r'
  }

  function TrimLeft(s: string): string {
    if |s| > 0 && IsSpace(s[0]) then TrimLeft(s[1..]) else s
  }

  function TrimRight(s: string): string {
    if |s| > 0 && IsSpace(s[|s| - 1]) then TrimRight(s[..|s| - 1]) else s
  }

  function Trim(s: string): string {
    TrimRight(TrimLeft(s))
  }

  /** The ASCII characters of white space: tab, line feed, vertical tab, form feed, carriage return and blank. */
  predicate White(c: char) {
    c as int in {9, 10, 11, 12, 13, 32}
  }

  lemma {:induction false} TrimLeftIs(s: string) returns (i: int)
    ensures 0 <= i <= |s| && TrimLeft(s) == s[i..] && forall k :: 0 <= k < i ==> White(s[k])
    ensures i < |s| ==> !White(s[i])
  {
    if |s| > 0 && IsSpace(s[0]) {
      i := TrimLeftIs(s[1..]);
      i := i + 1;
      assert forall k :: 0 < k < i ==> s[k] == s[1..][k - 1];
    } else {
      i := 0;
    }
  }

  lemma {:induction false} TrimRightIs(s: string) returns (j: int)
    ensures 0 <= j <= |s| && TrimRight(s) == s[..j] && forall k :: j <= k < |s| ==> White(s[k])
    ensures j > 0 ==> !White(s[j - 1])
  {
    if |s| > 0 && IsSpace(s[|s| - 1]) {
      j := TrimRightIs(s[..|s| - 1]);
    } else {
      j := |s|;
    }
  }

  /** Trimming takes the white space off both ends, and nothing else. */
  lemma TrimIs(s: string) returns (i: int, j: int)
    ensures 0 <= i <= j <= |s| && Trim(s) == s[i..j]
    ensures forall k :: 0 <= k < i || j <= k < |s| ==> White(s[k])
    ensures i < j ==> !White(s[i]) && !White(s[j - 1])
  {
    i := TrimLeftIs(s);
    var left := s[i..];
    var n := TrimRightIs(left);
    j := i + n;
    assert forall k :: j <= k < |s| ==> s[k] == left[k - i];
    assert n > 0 ==> left[n - 1] == s[j - 1] && left[0] == s[i];
  }

  function LowerChar(c: char): char {
    if 'A' <= c <= 'Z' then (c as int + 32) as char else c
  }

  function Lower(s: string): string {
    seq(|s|, i requires 0 <= i < |s| => LowerChar(s[i]))
  }

  const CAPITALS := "ABCDEFGHIJKLMNOPQRSTUVWXYZ"
  const SMALL := "abcdefghijklmnopqrstuvwxyz"

  lemma Alphabets(k: int)
    requires 0 <= k < 26
    ensures |CAPITALS| == |SMALL| == 26 && CAPITALS[k] as int == 65 + k && SMALL[k] as int == 97 + k
  {
  }

  /** Lower-casing replaces the letters of one alphabet by those of the other. */
  lemma LowerIs(s: string, i: int)
    requires 0 <= i < |s|
    ensures |Lower(s)| == |s|
    ensures forall k :: 0 <= k < 26 && s[i] == CAPITALS[k] ==> Lower(s)[i] == SMALL[k]
    ensures s[i] !in CAPITALS ==> Lower(s)[i] == s[i]
  {
    forall k | 0 <= k < 26 && s[i] == CAPITALS[k]
      ensures Lower(s)[i] == SMALL[k]
    {
      Alphabets(k);
    }
    if 'A' <= s[i] <= 'Z' {
      Alphabets(s[i] as int - 65);
      assert s[i] == CAPITALS[s[i] as int - 65];
    }
  }

  // ---------------------------------------------------------------- decimal integers

  predicate IsDigit(c: char) {
    '0' <= c <= '9'
  }

  predicate AllDigits(s: string) {
    forall i :: 0 <= i < |s| ==> IsDigit(s[i])
  }

  function Digit(d: nat): (c: char)
    requires d < 10
    ensures IsDigit(c)
  {
    ('0' as int + d) as char
  }

  function Digits(n: nat): (s: string)
    ensures |s| > 0 && AllDigits(s)
  {
    if n < 10 then [Digit(n)] else Digits(n / 10) + [Digit(n % 10)]
  }

  function Itoa(n: int): string {
    if n < 0 then "-" + Digits(-n) else Digits(n)
  }

  function DecimalValue(s: string): nat
    requires AllDigits(s)
  {
    if s == [] then 0
    else 10 * DecimalValue(s[..|s| - 1]) + (s[|s| - 1] as int - '0' as int)
  }

  /** `strconv.Atoi` with its error dropped: 0 on a syntax error, the nearest int64 on overflow. */
  function Atoi(s: string): int {
    var signed := |s| > 0 && (s[0] == '-' || s[0] == '+');
    var body := if signed then s[1..] else s;
    if body == [] || !AllDigits(body) then 0
    else
      var v: int := DecimalValue(body);
      Saturate64(if signed && s[0] == '-' then -v else v)
  }

  lemma {:induction false} DecimalValueOfDigits(n: nat)
    ensures DecimalValue(Digits(n)) == n
  {
    if n >= 10 {
      DecimalValueOfDigits(n / 10);
      assert Digits(n)[..|Digits(n)| - 1] == Digits(n / 10);
    } else {
      assert Digits(n)[..0] == [];
    }
  }

  lemma AtoiOfItoa(n: int)
    requires InInt64(n)
    ensures Atoi(Itoa(n)) == n
  {
    DecimalValueOfDigits(if n < 0 then -n else n);
    if n < 0 {
      assert Itoa(n)[1..] == Digits(-n);
    } else {
      assert IsDigit(Itoa(n)[0]);
    }
  }

  lemma ItoaInjective(m: int, n: int)
    requires Itoa(m) == Itoa(n)
    ensures m == n
  {
    assert Itoa(m)[0] == '-' <==> m < 0;
    assert Itoa(n)[0] == '-' <==> n < 0;
    DecimalValueOfDigits(if m < 0 then -m else m);
    DecimalValueOfDigits(if n < 0 then -n else n);
    if m < 0 {
      assert Digits(-m) == Itoa(m)[1..] == Itoa(n)[1..] == Digits(-n);
    }
  }

  lemma ItoaAlphabet(n: int, c: char)
    requires c in Itoa(n)
    ensures c == '-' || IsDigit(c)
  {
  }

  // ---------------------------------------------------------------- separators

  /** `strings.IndexByte`. */
  function IndexOf(s: string, c: char): (i: int)
    ensures -1 <= i < |s|
    ensures i == -1 <==> c !in s
    ensures i >= 0 ==> s[i] == c && c !in s[..i]
  {
    if s == [] then -1
    else if s[0] == c then 0
    else
      var j := IndexOf(s[1..], c);
      assert s == [s[0]] + s[1..];
      if j < 0 then -1 else
        assert s[..j + 1] == [s[0]] + s[1..][..j];
        j + 1
  }

  lemma Rejoin(s: string, i: nat)
    requires i < |s|
    ensures s[..i] + [s[i]] + s[i + 1..] == s
  {
  }

  lemma FirstAt(s: string, c: char, k: nat)
    requires k < |s| && s[k] == c && c !in s[..k]
    ensures IndexOf(s, c) == k
  {
    var i := IndexOf(s, c);
    assert forall j :: 0 <= j < i ==> s[j] == s[..i][j];
    assert forall j :: 0 <= j < k ==> s[j] == s[..k][j];
  }

  lemma FirstSeparator(a: string, c: char, b: string)
    requires c !in a
    ensures IndexOf(a + [c] + b, c) == |a|
  {
    var s := a + [c] + b;
    assert s[..|a|] == a && s[|a|] == c;
    FirstAt(s, c, |a|);
  }

  function LastIndexOf(s: string, c: char): (i: int)
    ensures -1 <= i < |s|
    ensures i == -1 <==> c !in s
    ensures i >= 0 ==> s[i] == c && c !in s[i + 1..]
  {
    if s == [] then -1
    else if s[|s| - 1] == c then |s| - 1
    else
      var i := LastIndexOf(s[..|s| - 1], c);
      assert s == s[..|s| - 1] + [s[|s| - 1]];
      assert i >= 0 ==> s[i + 1..] == s[..|s| - 1][i + 1..] + [s[|s| - 1]];
      i
  }

  /** A text is split at its last separator in only one way. */
  lemma RightSplit(a: string, b: string, a': string, b': string, c: char)
    requires a + [c] + b == a' + [c] + b'
    requires c !in b && c !in b'
    ensures a == a' && b == b'
  {
    var s := a + [c] + b;
    assert s[|a|] == c && s[|a'|] == c;
    assert forall i :: |a| < i < |s| ==> s[i] == b[i - |a| - 1];
    assert forall i :: |a'| < i < |s| ==> s[i] == b'[i - |a'| - 1];
    assert a == s[..|a|] && a' == s[..|a|];
    assert b == s[|a| + 1..] && b' == s[|a| + 1..];
  }

  function Count(s: string, c: char): nat {
    if s == [] then 0 else (if s[0] == c then 1 else 0) + Count(s[1..], c)
  }

  lemma {:induction false} CountConcat(a: string, b: string, c: char)
    ensures Count(a + b, c) == Count(a, c) + Count(b, c)
  {
    if a == [] {
      assert a + b == b;
    } else {
      CountConcat(a[1..], b, c);
      assert a + b == [a[0]] + (a[1..] + b);
    }
  }

  lemma {:induction false} CountZero(s: string, c: char)
    ensures Count(s, c) == 0 <==> c !in s
  {
    if s != [] {
      CountZero(s[1..], c);
      assert s == [s[0]] + s[1..];
    }
  }
}
