/**
 * The `{id}` path segment is read with `strconv.Atoi` (main.go:93, main.go:121):
 * an optional `+` or `-` followed by one or more decimal digits whose value fits
 * Go's 64-bit `int`; anything else is an error. `Itoa` is the decimal rendering
 * that clients use to build the path (`fmt.Sprintf("/todos/%d", id)`).
 */
module Strconv {
  import opened Wrappers
  import opened Machine

  predicate IsDigit(c: char)
  {
    '0' <= c <= '9'
  }

  predicate AllDigits(s: string)
  {
    forall i :: 0 <= i < |s| ==> IsDigit(s[i])
  }

  /** The value of a digit string, accumulated from the left as `n = n*10 + digit`. */
  function DecimalValue(s: string): nat
    requires AllDigits(s)
  {
    if s == [] then 0 else DecimalValue(s[..|s| - 1]) * 10 + (s[|s| - 1] as int - '0' as int)
  }

  /** strconv.Atoi on a 64-bit platform: a syntax or range error is `None`. */
  function Atoi(s: string): Option<Int64>
  {
    var negative := |s| > 0 && s[0] == '-';
    var digits := if |s| > 0 && (s[0] == '-' || s[0] == '+') then s[1..] else s;
    if digits == [] || !AllDigits(digits) then None
    else
      var n := if negative then -(DecimalValue(digits) as int) else DecimalValue(digits);
      if -TWO_TO_THE_63 <= n < TWO_TO_THE_63 then Some(n) else None
  }

  /** The shortest decimal digits of n. */
  function Digits(n: nat): (s: string)
    ensures s != [] && AllDigits(s)
    ensures DecimalValue(s) == n
  {
    var last := ['0' + (n % 10) as char];
    if n < 10 then last
    else
      var s := Digits(n / 10) + last;
      assert s[..|s| - 1] == Digits(n / 10);
      s
  }

  /** strconv.Itoa, the `%d` rendering of an `int`. */
  function Itoa(n: Int64): string
  {
    if n < 0 then "-" + Digits(-(n as int)) else Digits(n)
  }

  /** Atoi reads back exactly the id that Itoa rendered. */
  lemma AtoiItoa(n: Int64)
    ensures Atoi(Itoa(n)) == Some(n)
  {
    var s := Itoa(n);
    if n < 0 {
      var d := Digits(-(n as int));
      assert s[0] == '-' && s[1..] == d;
      assert DecimalValue(d) == -(n as int);
    } else {
      assert IsDigit(s[0]);
    }
  }

  /**
   * Atoi succeeds only on an optional sign followed by at least one digit, and
   * the sign of the text is the sign of the id.
   */
  lemma AtoiAcceptsOnlyDecimal(s: string)
    requires Atoi(s).Some?
    ensures |s| > 0
    ensures (s[0] == '-' || s[0] == '+') ==> |s| >= 2
    ensures s[0] == '-' || s[0] == '+' || IsDigit(s[0])
    ensures forall i :: 1 <= i < |s| ==> IsDigit(s[i])
    ensures s[0] == '-' ==> Atoi(s).value <= 0
    ensures s[0] != '-' ==> Atoi(s).value >= 0
  {
    if s[0] == '-' || s[0] == '+' {
      assert forall i :: 1 <= i < |s| ==> s[i] == s[1..][i - 1];
    }
  }

  /**
   * The converse of AtoiAcceptsOnlyDecimal: an optional sign followed by digits
   * reads as the signed value of the digits, leading zeros included, when it fits
   * `int`, and is a range error otherwise.
   */
  lemma AtoiOnDecimal(sign: string, d: string)
    requires sign == "" || sign == "+" || sign == "-"
    requires d != [] && AllDigits(d)
    ensures var n := if sign == "-" then -(DecimalValue(d) as int) else DecimalValue(d);
      Atoi(sign + d) == if -TWO_TO_THE_63 <= n < TWO_TO_THE_63 then Some(n) else None
  {
    var s := sign + d;
    if sign == "" {
      assert s == d;
      assert IsDigit(d[0]);
    } else {
      assert s[0] == sign[0];
      assert s[1..] == d;
    }
  }

  /** The text of 2^63 is an error; those of the largest and the most negative `int` are not. */
  lemma AtoiRange()
    ensures Atoi(Digits(TWO_TO_THE_63)) == None
    ensures Atoi("-" + Digits(TWO_TO_THE_63)) == Some(-TWO_TO_THE_63)
    ensures Atoi(Digits(TWO_TO_THE_63 - 1)) == Some(TWO_TO_THE_63 - 1)
  {
    var d, e := Digits(TWO_TO_THE_63), Digits(TWO_TO_THE_63 - 1);
    assert IsDigit(d[0]) && IsDigit(e[0]);
    assert ("-" + d)[1..] == d;
  }

  /** The path id of main_test.go:268 reads as that id. */
  lemma AtoiExample()
    ensures Atoi("99999") == Some(99999)
  {
    assert Itoa(99999) == "99999";
    AtoiItoa(99999);
  }

  /** Leading zeros and an explicit sign are accepted. */
  lemma AtoiSignsAndZeros()
    ensures Atoi("007") == Some(7) && Atoi("+7") == Some(7) && Atoi("-7") == Some(-7)
  {
    assert DecimalValue("7") == 7 by {
      assert "7"[..0] == "";
    }
    assert DecimalValue("007") == 7 by {
      assert "007"[..2] == "00" && "00"[..1] == "0" && "0"[..0] == "";
    }
    assert "+7"[1..] == "7" && "-7"[1..] == "7";
  }

  /** Empty text, a bare sign and non-digits are rejected. */
  lemma AtoiRejects()
    ensures Atoi("") == None && Atoi("-") == None && Atoi("+") == None
    ensures Atoi("abc") == None && Atoi("12a") == None && Atoi("1.5") == None
  {
    assert !IsDigit("abc"[0]) && !IsDigit("12a"[2]) && !IsDigit("1.5"[1]);
  }
}
