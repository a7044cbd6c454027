/** The decimal rendering of a natural number that a template literal such as
    `${n}` produces, with its inverse. */
module Decimal {
  predicate IsDigit(c: char) {
    '0' <= c <= '9'
  }

  function Digit(d: nat): (c: char)
    requires d < 10
    ensures IsDigit(c) && c as int - '0' as int == d
  {
    ['0', '1', '2', '3', '4', '5', '6', '7', '8', '9'][d]
  }

  /** The shortest decimal form of `n`: non-empty digits, no leading zero unless `n` is 0. */
  function Show(n: nat): (s: string)
    ensures |s| > 0
    ensures forall i :: 0 <= i < |s| ==> IsDigit(s[i])
    ensures |s| > 1 ==> s[0] != '0'
  {
    if n < 10 then [Digit(n)] else Show(n / 10) + [Digit(n % 10)]
  }

  /** The number a string of digits denotes. */
  function Value(s: string): nat
    requires forall i :: 0 <= i < |s| ==> IsDigit(s[i])
  {
    if s == [] then 0
    else
      var d := s[|s| - 1] as int - '0' as int;
      assert IsDigit(s[|s| - 1]);
      Value(s[..|s| - 1]) * 10 + d
  }

  lemma {:induction false} ValueOfShow(n: nat)
    ensures Value(Show(n)) == n
  {
    if n >= 10 {
      ValueOfShow(n / 10);
      var s := Show(n);
      assert s[..|s| - 1] == Show(n / 10);
    }
  }

  /** A numeral without a leading zero denotes at least 1 unless it is "0". */
  lemma {:induction false} ValuePositive(s: string)
    requires |s| > 0 && (forall i :: 0 <= i < |s| ==> IsDigit(s[i])) && s[0] != '0'
    ensures Value(s) >= 1
  {
    if |s| > 1 {
      var p := s[..|s| - 1];
      assert p[0] == s[0];
      ValuePositive(p);
    }
  }

  /** The other direction of `ValueOfShow`: a numeral without leading zeros is the decimal
      text of its value, so `Show` is the only such numeral for a number. */
  lemma {:induction false} ShowOfValue(s: string)
    requires |s| > 0 && (forall i :: 0 <= i < |s| ==> IsDigit(s[i]))
    requires |s| > 1 ==> s[0] != '0'
    ensures Show(Value(s)) == s
  {
    var p, c := s[..|s| - 1], s[|s| - 1];
    assert IsDigit(c);
    var d := c as int - '0' as int;
    DigitOf(c);
    ValueLast(s);
    assert s == p + [c];
    if |s| == 1 {
      assert Value(p) == 0;
      assert Show(d) == [c];
    } else {
      assert p[0] == s[0];
      ValuePositive(p);
      ShowOfValue(p);
      AppendDigitShow(Value(p), d, p, c);
    }
  }

  /** Appending digit `d` to the decimal text of a positive `m` gives the text of `m * 10 + d`. */
  lemma AppendDigitShow(m: nat, d: nat, p: string, c: char)
    requires m >= 1 && d < 10 && Show(m) == p && Digit(d) == c
    ensures Show(m * 10 + d) == p + [c]
  {
    SplitLastDigit(m, d);
    ShowLast(m * 10 + d);
  }

  lemma ValueLast(s: string)
    requires |s| > 0 && (forall i :: 0 <= i < |s| ==> IsDigit(s[i]))
    ensures Value(s) == Value(s[..|s| - 1]) * 10 + (s[|s| - 1] as int - '0' as int)
  {
  }

  lemma ShowLast(n: nat)
    requires n >= 10
    ensures Show(n) == Show(n / 10) + [Digit(n % 10)]
  {
  }

  lemma DigitOf(c: char)
    requires IsDigit(c)
    ensures Digit(c as int - '0' as int) == c
  {
  }

  lemma SplitLastDigit(v: nat, d: nat)
    requires d < 10
    ensures (v * 10 + d) / 10 == v && (v * 10 + d) % 10 == d
  {
  }
}
