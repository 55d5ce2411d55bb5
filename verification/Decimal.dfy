/** Decimal printing and parsing of 64-bit integers: fmt's %d and strconv.ParseInt(s, 10, 64). */
module Decimal {
  import opened Rows

  const MAX_INT64: int := 0x7FFF_FFFF_FFFF_FFFF
  const MIN_INT64: int := -0x8000_0000_0000_0000

  predicate Int64(i: int) {
    MIN_INT64 <= i <= MAX_INT64
  }

  // ----- digits -----

  predicate IsDigit(c: char) {
    '0' <= c <= '9'
  }

  function DigitChar(d: nat): (c: char)
    requires d < 10
    ensures IsDigit(c) && DigitValue(c) == d
  {
    '0' + d as char
  }

  function DigitValue(c: char): nat
    requires IsDigit(c)
  {
    (c - '0') as nat
  }

  predicate AllDigits(s: string) {
    forall i :: 0 <= i < |s| ==> IsDigit(s[i])
  }

  function Value(s: string): nat
    requires AllDigits(s)
  {
    if s == "" then 0 else 10 * Value(s[..|s| - 1]) + DigitValue(s[|s| - 1])
  }

  function Digits(n: nat): (s: string)
    ensures s != "" && AllDigits(s)
  {
    if n < 10 then [DigitChar(n)] else Digits(n / 10) + [DigitChar(n % 10)]
  }

  lemma {:induction false} ValueOfDigits(n: nat)
    ensures Value(Digits(n)) == n
  {
    var s := Digits(n);
    if n < 10 {
      assert s[..|s| - 1] == "";
    } else {
      assert s[..|s| - 1] == Digits(n / 10);
      ValueOfDigits(n / 10);
    }
  }

  /** Only a text without leading zeros is what its value prints as. */
  predicate NoLeadingZero(s: string) {
    s != "" && (s[0] == '0' ==> |s| == 1)
  }

  lemma {:induction false} DigitsOfValue(s: string)
    requires AllDigits(s) && s != ""
    ensures Digits(Value(s)) == s <==> NoLeadingZero(s)
    ensures NoLeadingZero(s) && |s| > 1 ==> Value(s) >= 10
  {
    var init := s[..|s| - 1];
    assert s == init + [s[|s| - 1]];
    if init == "" {
      assert Value(init) == 0;
    } else {
      DigitsOfValue(init);
      assert s[0] == init[0];
      if NoLeadingZero(s) {
        assert Value(init) >= 1 by {
          if |init| == 1 {
            assert init[..0] == "";
            assert Value(init) == DigitValue(init[0]);
          }
        }
        assert Value(s) / 10 == Value(init) && Value(s) % 10 == DigitValue(s[|s| - 1]);
      } else {
        PrintedNoLeadingZero(Value(s));
      }
    }
  }

  lemma {:induction false} PrintedNoLeadingZero(n: nat)
    ensures NoLeadingZero(Digits(n))
    ensures n > 0 ==> Digits(n)[0] != '0'
  {
    if n < 10 {
    } else {
      PrintedNoLeadingZero(n / 10);
      assert Digits(n)[0] == Digits(n / 10)[0];
    }
  }

  // ----- signed numbers -----

  /** %d */
  function Print(i: int): string {
    if i < 0 then "-" + Digits(-i) else Digits(i)
  }

  /** strconv.ParseInt(s, 10, 64): an optional sign, at least one digit, nothing else, and in range. */
  function ParseInt(s: string): Option<int> {
    if s == "" then None
    else
      var signed := s[0] == '+' || s[0] == '-';
      var body := if signed then s[1..] else s;
      if body == "" || !AllDigits(body) then None
      else
        var n: int := Value(body);
        var v := if s[0] == '-' then -n else n;
        if Int64(v) then Some(v) else None
  }

  /** Texts that a number prints as: no plus sign, no leading zero, no negative zero. */
  predicate Canonical(s: string) {
    if s != "" && s[0] == '-' then NoLeadingZero(s[1..]) && s != "-0" else NoLeadingZero(s) && s[0] != '+'
  }

  lemma ParsePrint(i: int)
    requires Int64(i)
    ensures ParseInt(Print(i)) == Some(i)
  {
    var n := if i < 0 then -i else i;
    ValueOfDigits(n);
    if i < 0 {
      assert Print(i)[1..] == Digits(n);
    } else {
      assert IsDigit(Print(i)[0]);
    }
  }

  lemma PrintInjective(i: int, k: int)
    requires Print(i) == Print(k)
    ensures i == k
  {
    var a, b := if i < 0 then -i else i, if k < 0 then -k else k;
    ValueOfDigits(a);
    ValueOfDigits(b);
    assert IsDigit(Digits(a)[0]) && IsDigit(Digits(b)[0]);
    if i < 0 && k < 0 {
      assert Print(i)[1..] == Digits(a) && Print(k)[1..] == Digits(b);
    }
  }

  /** Parsing inverts printing on the other side too, exactly for canonical texts. */
  lemma PrintParse(s: string)
    requires ParseInt(s).Some?
    ensures Print(ParseInt(s).value) == s <==> Canonical(s)
  {
    var v := ParseInt(s).value;
    if s[0] == '-' {
      var body := s[1..];
      DigitsOfValue(body);
      assert s == "-" + body;
      if v < 0 {
        assert Print(v) == "-" + Digits(Value(body));
        assert ("-" + Digits(Value(body)))[1..] == Digits(Value(body));
      } else {
        assert Value(body) == 0;
        assert IsDigit(Print(v)[0]);
        if NoLeadingZero(body) {
          assert Digits(0) == body;
        }
      }
    } else if s[0] == '+' {
      assert Print(v) != s by {
        assert IsDigit(Print(v)[0]);
      }
    } else {
      DigitsOfValue(s);
    }
  }

  lemma PrintHasNoColon(i: int, k: nat)
    requires k < |Print(i)|
    ensures Print(i)[k] != ':'
  {
    if i < 0 && k > 0 {
      assert Print(i)[k] == Digits(-i)[k - 1];
    }
  }
}
