/** Decimal text of a natural number, as std::to_string and %d print it, and the scan that reads it back. */
module Decimal {

  function Digit(d: nat): char
    requires d < 10
  {
    '0' + d as char
  }

  predicate IsDigit(c: char) {
    '0' <= c <= '9'
  }

  function Print(n: nat): (s: string)
    ensures 0 < |s| && forall i :: 0 <= i < |s| ==> IsDigit(s[i])
  {
    if n < 10 then [Digit(n)] else Print(n / 10) + [Digit(n % 10)]
  }

  /** The number a run of digits stands for. */
  function Value(s: string): nat
    requires forall i :: 0 <= i < |s| ==> IsDigit(s[i])
  {
    if s == [] then 0
    else
      assert IsDigit(s[|s| - 1]);
      10 * Value(s[..|s| - 1]) + (s[|s| - 1] as int - '0' as int)
  }

  lemma {:induction false} ValueOfPrint(n: nat)
    ensures Value(Print(n)) == n
  {
    if n < 10 {
      assert Print(n)[..0] == [];
    } else {
      ValueOfPrint(n / 10);
      assert Print(n)[..|Print(n)| - 1] == Print(n / 10);
    }
  }

  /** Two numbers never share a decimal text. */
  lemma PrintInjective(a: nat, b: nat)
    requires Print(a) == Print(b)
    ensures a == b
  {
    ValueOfPrint(a);
    ValueOfPrint(b);
  }

  function PrintInt(n: int): (s: string)
    ensures 0 < |s| && IsDigit(s[|s| - 1])
  {
    if n < 0 then "-" + Print(-n) else Print(n)
  }

  lemma PrintIntInjective(a: int, b: int)
    requires PrintInt(a) == PrintInt(b)
    ensures a == b
  {
    var s := PrintInt(a);
    assert a < 0 <==> s[0] == '-';
    assert b < 0 <==> s[0] == '-';
    if a < 0 {
      assert s[1..] == Print(-a) == Print(-b);
      PrintInjective(-a, -b);
    } else {
      PrintInjective(a, b);
    }
  }

  /** The value of digits: ten times that of those before the last, and the last. */
  lemma ValueIs(s: string, c: char)
    requires (forall i :: 0 <= i < |s| ==> '0' <= s[i] <= '9') && '0' <= c <= '9'
    ensures Value("") == 0 && Value(s + [c]) == 10 * Value(s) + (c as int - '0' as int)
  {
    assert (s + [c])[..|s|] == s && forall i :: 0 <= i < |s + [c]| ==> IsDigit((s + [c])[i]);
  }

  /** A number has one text without idle zeros in front, and that is the one printed. */
  lemma {:induction false} PrintOfValue(s: string)
    requires s != "" && (|s| == 1 || s[0] != '0') && forall i :: 0 <= i < |s| ==> '0' <= s[i] <= '9'
    ensures Print(Value(s)) == s
  {
    hide Print, Value;
    var front, last := s[..|s| - 1], s[|s| - 1];
    assert s == front + [last];
    ValueIs(front, last);
    if |s| == 1 {
      PrintMore(0, last);
    } else {
      assert front[0] == s[0];
      PositiveValue(front);
      PrintOfValue(front);
      PrintMore(Value(front), last);
    }
  }

  lemma PrintMore(n: nat, last: char)
    requires '0' <= last <= '9'
    ensures Print(10 * n + (last as int - '0' as int)) == if n == 0 then [last] else Print(n) + [last]
  {
    var d := last as int - '0' as int;
    assert (10 * n + d) / 10 == n && (10 * n + d) % 10 == d && Digit(d) == last;
  }

  lemma {:induction false} PositiveValue(s: string)
    requires s != "" && s[0] != '0' && forall i :: 0 <= i < |s| ==> IsDigit(s[i])
    ensures Value(s) > 0
  {
    if |s| > 1 {
      PositiveValue(s[..|s| - 1]);
    }
  }
}
