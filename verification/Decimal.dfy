/** strconv.Itoa and strconv.Atoi on 64-bit integers: the printed form of a page token. */
module Decimal {
  import opened Wrappers

  const MIN_INT: int := -0x8000_0000_0000_0000
  const MAX_INT: int := 0x7FFF_FFFF_FFFF_FFFF

  predicate IsDigit(c: char) {
    '0' <= c <= '9'
  }

  function Digit(d: nat): char
    requires d < 10
  {
    '0' + d as char
  }

  function DigitValue(c: char): nat
    requires IsDigit(c)
  {
    c as int - '0' as int
  }

  predicate AllDigits(s: string) {
    forall c | c in s :: IsDigit(c)
  }

  function Digits(n: nat): (s: string)
    ensures s != "" && AllDigits(s)
  {
    if n < 10 then [Digit(n)] else Digits(n / 10) + [Digit(n % 10)]
  }

  function Value(s: string): nat
    requires AllDigits(s)
  {
    if s == "" then 0
    else 10 * Value(s[..|s| - 1]) + DigitValue(s[|s| - 1])
  }

  function Itoa(n: int): string {
    if n < 0 then "-" + Digits(-n) else Digits(n)
  }

  /** None stands for both of Atoi's errors, bad syntax and out of range. */
  function Atoi(s: string): Option<int> {
    var signed := s != "" && (s[0] == '-' || s[0] == '+');
    var digits := if signed then s[1..] else s;
    if digits == "" || !AllDigits(digits) then None
    else
      var n: int := if s[0] == '-' then 0 - Value(digits) else Value(digits);
      if MIN_INT <= n <= MAX_INT then Some(n) else None
  }

  /**
   What Atoi accepts: one or more digits, with at most one sign before them, and a value in range. The
   value of digits is fixed by `DigitsOfValue`, up to leading zeros, and by `LeadingZero`.
   */
  lemma AtoiMeans(digits: string)
    requires digits != "" && AllDigits(digits)
    ensures var n: int := Value(digits);
            && Atoi(digits) == Atoi("+" + digits) == (if n <= MAX_INT then Some(n) else None)
            && Atoi("-" + digits) == if -n >= MIN_INT then Some(-n) else None
  {
    assert IsDigit(digits[0]);
    assert ("+" + digits)[1..] == digits && ("-" + digits)[1..] == digits;
  }

  lemma AtoiRejects(s: string)
    requires s == "" || s == "+" || s == "-" || !AllDigits(s[1..]) || !(IsDigit(s[0]) || s[0] == '+' || s[0] == '-')
    ensures Atoi(s) == None
  {
  }

  lemma {:induction false} LeadingZero(digits: string)
    requires AllDigits(digits)
    ensures AllDigits("0" + digits) && Value("0" + digits) == Value(digits)
  {
    if digits == "" {
      assert ("0" + digits)[..0] == "";
    } else {
      LeadingZero(digits[..|digits| - 1]);
      assert ("0" + digits)[..|digits|] == "0" + digits[..|digits| - 1];
    }
  }

  /** Digits without a leading zero are the printed form of their value. */
  lemma {:induction false} DigitsOfValue(digits: string)
    requires digits != "" && AllDigits(digits) && (digits[0] != '0' || |digits| == 1)
    ensures Digits(Value(digits)) == digits
  {
    if |digits| == 1 {
      assert IsDigit(digits[0]) && Value(digits[..0]) == 0;
      assert Digits(Value(digits)) == [digits[0]];
    } else {
      var front, last := digits[..|digits| - 1], digits[|digits| - 1];
      assert IsDigit(last) && IsDigit(digits[0]);
      DigitsOfValue(front);
      if |front| == 1 {
        assert Value(front[..0]) == 0;
      }
      assert Value(front) >= 1;
      assert digits == front + [last];
    }
  }

  lemma {:induction false} ValueOfDigits(n: nat)
    ensures Value(Digits(n)) == n
  {
    if n >= 10 {
      ValueOfDigits(n / 10);
      assert (Digits(n / 10) + [Digit(n % 10)])[..|Digits(n)| - 1] == Digits(n / 10);
    }
  }

  /** Every 64-bit integer survives printing and parsing. */
  lemma AtoiOfItoa(n: int)
    requires MIN_INT <= n <= MAX_INT
    ensures Itoa(n) != "" && Atoi(Itoa(n)) == Some(n)
  {
    if n < 0 {
      ValueOfDigits(-n);
      assert Itoa(n)[1..] == Digits(-n);
    } else {
      ValueOfDigits(n);
      assert IsDigit(Itoa(n)[0]);
    }
  }
}
