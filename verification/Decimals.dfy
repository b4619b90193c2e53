/** Numbers in decimal digits: what a text of digits is worth, and which texts spell a number. */
module Decimals {
  import opened Collections
  import opened JsonGrammar
  import opened RemoteActionReceiptJson

  /** The digits of a number, without leading zeros. */
  function Decimal(n: nat): Text { (if n < 10 then [] else Decimal(n / 10)) + [ZERO + n % 10] }

  /** A number's digits are worth the number. */
  lemma {:induction false} DecimalIsWorth(n: nat)
    ensures DigitsValue(Decimal(n)) == n
    ensures Digits(Decimal(n)) && Decimal(n) != [] && (Decimal(n)[0] == ZERO ==> n == 0)
  {
    var front := if n < 10 then [] else Decimal(n / 10);
    if n >= 10 { DecimalIsWorth(n / 10); }
    assert Decimal(n) == front + [ZERO + n % 10];
    assert Decimal(n)[..|Decimal(n)| - 1] == front;
  }

  /** Digits without leading zeros are the digits of their worth. */
  lemma {:induction false} DigitsAreDecimal(d: Text)
    requires d != [] && Digits(d) && (d[0] == ZERO ==> |d| == 1)
    ensures DigitsValue(d) >= 0 && Decimal(DigitsValue(d)) == d
    ensures DigitsValue(d) == 0 ==> d == [ZERO]
    decreases |d|
  {
    var front, last := d[..|d| - 1], d[|d| - 1];
    assert d == front + [last];
    if front == [] {
      assert DigitsValue(front) == 0;
    } else {
      DigitsAreDecimal(front);
      assert DigitsValue(front) != 0;
    }
  }

  /** A text of digits is without leading zeros exactly if it is the decimal of some number, which it is worth. */
  lemma DecimalsExactly(d: Text, n: nat)
    ensures d == Decimal(n) <==> d != [] && Digits(d) && (d[0] == ZERO ==> |d| == 1) && DigitsValue(d) == n
  {
    DecimalIsWorth(n);
    if d != [] && Digits(d) && (d[0] == ZERO ==> |d| == 1) { DigitsAreDecimal(d); }
    if d == Decimal(n) && d[0] == ZERO { assert Decimal(0) == [ZERO]; }
  }

  /** A one followed by this many zeros, after zeros. */
  predicate OneThenZeros(d: Text, zeros: nat) {
    && zeros < |d| && d[|d| - 1 - zeros] == '1' as int
    && forall k :: 0 <= k < |d| && k != |d| - 1 - zeros ==> d[k] == '0' as int
  }

  lemma {:induction false} PowersOfTen(d: Text, zeros: nat)
    requires Digits(d)
    ensures DigitsValue(d) >= 0 && (DigitsValue(d) == 0 <==> forall k :: 0 <= k < |d| ==> d[k] == ZERO)
    ensures DigitsValue(d) == PowerOfTen(zeros) <==> OneThenZeros(d, zeros)
    decreases |d|
  {
    PowerIsPositive(zeros);
    if d != [] {
      var n := |d| - 1;
      var front, last := d[..n], d[n];
      assert d == front + [last];
      PowersOfTen(front, if zeros == 0 then 0 else zeros - 1);
      if zeros > 0 { PowerIsPositive(zeros - 1); }
      assert forall k :: 0 <= k < n ==> front[k] == d[k];
    }
  }

  lemma {:induction false} PowerIsPositive(n: nat)
    ensures PowerOfTen(n) > 0
    decreases n
  {
    if n > 0 { PowerIsPositive(n - 1); }
  }

  /** How far an exponent moves the point: its decimal, to the left after a minus. */
  lemma ExponentMoves(n: nat, e: CodeUnit)
    ensures ExponentValue([e] + Decimal(n)) == n && ExponentValue([e, '+' as int] + Decimal(n)) == n
    ensures ExponentValue([e, '-' as int] + Decimal(n)) == -(n as int)
    ensures ExponentValue([]) == 0
  {
    DecimalIsWorth(n);
    var d := Decimal(n);
    assert ([e] + d)[1..] == d && ([e] + d)[1] == d[0];
    assert ([e, PLUS] + d)[2..] == d && ([e, MINUS] + d)[2..] == d;
  }

  /** A number is one exactly if it is not negative and its digits, up to where the point ends up, are a one. */
  lemma OneExactly(n: Number)
    requires ValidNumber(n)
    ensures var digits := n.whole + if n.fraction == [] then [] else n.fraction[1..];
            var after := |digits| - |n.whole| - ExponentValue(n.exponent);
            IsOne(n) <==> !n.minus && after >= 0 && OneThenZeros(digits, after)
  {
    hide OneThenZeros;
    var fraction := if n.fraction == [] then [] else n.fraction[1..];
    var digits := n.whole + fraction;
    var after := |fraction| - ExponentValue(n.exponent);
    assert Digits(digits);
    PowersOfTen(digits, if after >= 0 then after else 0);
  }
}
