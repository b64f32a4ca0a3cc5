/** String helpers standing for Python's `str.lower()` and `str()` of numbers. */
module Text {

  function LowerChar(c: char): char {
    if 'A' <= c <= 'Z' then (c as int + 32) as char else c
  }

  /** `s.lower()` restricted to ASCII letters. */
  function Lower(s: string): (r: string)
    ensures |r| == |s|
    ensures forall i :: 0 <= i < |s| ==> r[i] == LowerChar(s[i])
  {
    if s == [] then [] else [LowerChar(s[0])] + Lower(s[1..])
  }

  predicate IsDigitChar(c: char) {
    '0' <= c <= '9'
  }

  function Digit(d: nat): (c: char)
    requires d < 10
    ensures IsDigitChar(c) && DigitValue(c) == d
  {
    ('0' as int + d) as char
  }

  function DigitValue(c: char): int {
    c as int - '0' as int
  }

  /** Reading the digits of `s` left to right onto `acc`: each digit shifts what was read by one place. */
  function ReadDigits(s: string, acc: int): int {
    if s == [] then acc else ReadDigits(s[1..], 10 * acc + DigitValue(s[0]))
  }

  /** Reading one more digit at the end shifts the value by one place and adds that digit. */
  lemma {:induction false} ReadDigitsSnoc(s: string, c: char, acc: int)
    ensures ReadDigits(s + [c], acc) == 10 * ReadDigits(s, acc) + DigitValue(c)
  {
    if s == [] {
      assert [] + [c] == [c];
    } else {
      assert (s + [c])[1..] == s[1..] + [c];
      ReadDigitsSnoc(s[1..], c, 10 * acc + DigitValue(s[0]));
    }
  }

  /** The decimal numeral of `n`: it reads back as `n`, and starts with 0 only when it is "0". */
  function NatStr(n: nat): (r: string)
    ensures 0 < |r|
    ensures forall i :: 0 <= i < |r| ==> IsDigitChar(r[i])
    ensures ReadDigits(r, 0) == n
    ensures r[0] == '0' <==> n == 0
  {
    if n < 10 then
      assert ReadDigits([Digit(n)], 0) == ReadDigits([], DigitValue(Digit(n)));
      [Digit(n)]
    else
      var front := NatStr(n / 10);
      ReadDigitsSnoc(front, Digit(n % 10), 0);
      front + [Digit(n % 10)]
  }

  /** `str(i)` for a Python `int`. */
  function IntStr(i: int): string {
    if i < 0 then "-" + NatStr(-i) else NatStr(i)
  }

  /** `str(x)` for a Python `float` holding `h` hundredths: at least one and at most two fraction digits. */
  function FloatStr(h: int): string
  {
    var a := if h < 0 then -h else h;
    var frac := a % 100;
    var fracDigits := if frac % 10 == 0 then [Digit(frac / 10)] else [Digit(frac / 10), Digit(frac % 10)];
    (if h < 0 then "-" else "") + NatStr(a / 100) + "." + fracDigits
  }
}
