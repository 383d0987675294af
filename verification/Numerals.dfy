/** Decimal numbers as the C engine prints and reads them. Only what it prints is read back, so signs and
    leading blanks do not arise. */
module Numerals {

  predicate IsDigit(c: char) {
    '0' <= c <= '9'
  }

  function DigitOf(n: nat): (c: char)
    requires n < 10
    ensures IsDigit(c) && c as int - '0' as int == n
  {
    ('0' as int + n) as char
  }

  function Digits(n: nat): string {
    if n < 10 then [DigitOf(n)] else Digits(n / 10) + [DigitOf(n % 10)]
  }

  /** Reads digits up to the first character that is none. */
  function AtoiFrom(text: string, acc: nat): nat
    decreases |text|
  {
    if text == "" || !IsDigit(text[0]) then acc else AtoiFrom(text[1..], acc * 10 + (text[0] as int - '0' as int))
  }

  function Atoi(text: string): nat {
    AtoiFrom(text, 0)
  }

  predicate AllDigits(text: string) {
    forall k :: 0 <= k < |text| ==> IsDigit(text[k])
  }

  lemma {:induction false} AtoiSplit(a: string, rest: string, acc: nat)
    requires AllDigits(a)
    ensures AtoiFrom(a + rest, acc) == AtoiFrom(rest, AtoiFrom(a, acc))
    decreases |a|
  {
    if a == "" {
      assert a + rest == rest;
    } else {
      assert (a + rest)[0] == a[0] && (a + rest)[1..] == a[1..] + rest;
      AtoiSplit(a[1..], rest, acc * 10 + (a[0] as int - '0' as int));
    }
  }

  lemma OneDigit(n: nat, acc: nat)
    requires n < 10
    ensures AtoiFrom([DigitOf(n)], acc) == acc * 10 + n
  {
    var text := [DigitOf(n)];
    assert text[1..] == "" && AtoiFrom(text[1..], acc * 10 + n) == acc * 10 + n;
  }

  lemma {:induction false} DigitsRead(n: nat)
    ensures AllDigits(Digits(n)) && Digits(n) != "" && Atoi(Digits(n)) == n
  {
    if n >= 10 {
      DigitsRead(n / 10);
      AtoiSplit(Digits(n / 10), [DigitOf(n % 10)], 0);
      OneDigit(n % 10, n / 10);
    } else {
      OneDigit(n, 0);
    }
  }

  /** Reading what was printed gives the number back, whatever follows it that is no digit. */
  lemma PrintRead(n: nat, rest: string)
    requires rest == "" || !IsDigit(rest[0])
    ensures Atoi(Digits(n) + rest) == n
  {
    DigitsRead(n);
    AtoiSplit(Digits(n), rest, 0);
  }

  function Pow10(k: nat): nat {
    if k == 0 then 1 else 10 * Pow10(k - 1)
  }

  lemma {:induction false} DigitsShort(n: nat, k: nat)
    requires k > 0 && n < Pow10(k)
    ensures |Digits(n)| <= k
    decreases k
  {
    if n >= 10 {
      assert Pow10(1) == 10 * Pow10(0);
      DigitsShort(n / 10, k - 1);
    }
  }

  const INT_LIMIT := 0x8000_0000

  /** A number that fits an int takes at most ten digits. */
  lemma IntDigits(n: nat)
    requires n < INT_LIMIT
    ensures |Digits(n)| <= 10
  {
    assert Pow10(2) == 100 && Pow10(4) == 100 * Pow10(2) && Pow10(6) == 100 * Pow10(4) && Pow10(8) == 100 * Pow10(6)
        && Pow10(10) == 100 * Pow10(8);
    DigitsShort(n, 10);
  }
}
