/**
 * Python's ordering of `str` values (code point by code point, a proper
 * prefix first) and the fixed-width decimal digit strings used in ISO dates.
 */
module LexOrder {

  /** `a < b` on Python strings. */
  predicate LexLess(a: string, b: string)
    decreases |a|
  {
    if |b| == 0 then false
    else if |a| == 0 then true
    else if a[0] != b[0] then a[0] < b[0]
    else LexLess(a[1..], b[1..])
  }

  lemma {:induction false} LexIrreflexive(a: string)
    ensures !LexLess(a, a)
    decreases |a|
  {
    if |a| > 0 {
      LexIrreflexive(a[1..]);
    }
  }

  lemma {:induction false} LexTransitive(a: string, b: string, c: string)
    requires LexLess(a, b) && LexLess(b, c)
    ensures LexLess(a, c)
    decreases |a|
  {
    if |a| > 0 && a[0] == b[0] && b[0] == c[0] {
      LexTransitive(a[1..], b[1..], c[1..]);
    }
  }

  lemma {:induction false} LexTotal(a: string, b: string)
    requires a != b
    ensures LexLess(a, b) || LexLess(b, a)
    decreases |a|
  {
    if |a| > 0 && |b| > 0 && a[0] == b[0] {
      assert a == [a[0]] + a[1..] && b == [b[0]] + b[1..];
      LexTotal(a[1..], b[1..]);
    }
  }

  lemma LexAsymmetric(a: string, b: string)
    requires LexLess(a, b)
    ensures !LexLess(b, a)
  {
    if LexLess(b, a) {
      LexTransitive(a, b, a);
      LexIrreflexive(a);
    }
  }

  /** Comparing two concatenations whose first parts have the same length. */
  lemma {:induction false} LexAppend(a: string, x: string, b: string, y: string)
    requires |a| == |b|
    ensures LexLess(a + x, b + y) <==> LexLess(a, b) || (a == b && LexLess(x, y))
    decreases |a|
  {
    if |a| == 0 {
      assert a + x == x && b + y == y;
      LexIrreflexive(a);
    } else {
      assert (a + x)[0] == a[0] && (b + y)[0] == b[0];
      assert (a + x)[1..] == a[1..] + x && (b + y)[1..] == b[1..] + y;
      assert a == [a[0]] + a[1..] && b == [b[0]] + b[1..];
      LexAppend(a[1..], x, b[1..], y);
    }
  }

  predicate IsDigit(c: char) { '0' <= c <= '9' }

  predicate IsDigits(s: string) { forall i :: 0 <= i < |s| ==> IsDigit(s[i]) }

  function DigitValue(c: char): nat
    requires IsDigit(c)
  {
    c as int - '0' as int
  }

  function DigitChar(n: nat): char
    requires n < 10
  {
    ('0' as int + n) as char
  }

  /** The number a string of decimal digits denotes (leading zeros allowed). */
  function DigitsValue(s: string): nat
    requires IsDigits(s)
  {
    if |s| == 0 then 0 else 10 * DigitsValue(s[..|s| - 1]) + DigitValue(s[|s| - 1])
  }

  function Pow10(n: nat): nat
  {
    if n == 0 then 1 else 10 * Pow10(n - 1)
  }

  /** The last `width` decimal digits of `n`, zero-padded on the left. */
  function Pad(n: nat, width: nat): (s: string)
    ensures |s| == width && IsDigits(s)
  {
    if width == 0 then [] else Pad(n / 10, width - 1) + [DigitChar(n % 10)]
  }

  /** Padding a number that fits the width and reading it back gives the number. */
  lemma {:induction false} PadValue(n: nat, width: nat)
    requires n < Pow10(width)
    ensures DigitsValue(Pad(n, width)) == n
    decreases width
  {
    if width > 0 {
      var s := Pad(n, width);
      assert s[..width - 1] == Pad(n / 10, width - 1);
      PadValue(n / 10, width - 1);
    }
  }

  /** Reading a digit string and padding it back to its width gives the string. */
  lemma {:induction false} ValuePad(s: string)
    requires IsDigits(s)
    ensures Pad(DigitsValue(s), |s|) == s
    decreases |s|
  {
    if |s| > 0 {
      var init, last := s[..|s| - 1], s[|s| - 1];
      var v := DigitsValue(s);
      assert v / 10 == DigitsValue(init) && v % 10 == DigitValue(last);
      assert DigitChar(DigitValue(last)) == last;
      ValuePad(init);
      calc {
        Pad(v, |s|);
        Pad(v / 10, |s| - 1) + [DigitChar(v % 10)];
        init + [last];
        s;
      }
    }
  }

  /** On digit strings of one width, string order is numeric order. */
  lemma {:induction false} DigitsLexOrder(a: string, b: string)
    requires |a| == |b| && IsDigits(a) && IsDigits(b)
    ensures LexLess(a, b) <==> DigitsValue(a) < DigitsValue(b)
    decreases |a|
  {
    if |a| == 0 {
    } else {
      var n := |a| - 1;
      var a', b' := a[..n], b[..n];
      assert a == a' + [a[n]] && b == b' + [b[n]];
      LexAppend(a', [a[n]], b', [b[n]]);
      DigitsLexOrder(a', b');
      if DigitsValue(a') == DigitsValue(b') {
        ValuePad(a');
        ValuePad(b');
      }
    }
  }
}
