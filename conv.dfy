/** `src/conv.c`: decimal text to `int` by Horner's rule, with no digit
    validation and no overflow detection. */
module Conv {

  import opened Tokens

  const INT_MIN: int := -0x8000_0000
  const INT_MAX: int := 0x7fff_ffff

  predicate InInt(x: int)
  {
    INT_MIN <= x <= INT_MAX
  }

  /** A decimal digit: `ctoi`'s range 0..9, and `DIGIT(c)` in the tokenizer. */
  predicate IsDigit(c: char)
  {
    '0' <= c <= '9'
  }

  predicate AllDigits(s: string)
  {
    forall i :: 0 <= i < |s| ==> IsDigit(s[i])
  }

  /** `ctoi`: the character's offset from `'0'`, for any character. */
  function Ctoi(c: char): (r: int)
    ensures IsDigit(c) ==> 0 <= r <= 9
    ensures !IsDigit(c) ==> r < 0 || r > 9
  {
    c as int - '0' as int
  }

  /** What `stoi` accumulates over `s`, in unbounded arithmetic:
      every character multiplies the running value by ten and adds its `ctoi`. */
  function Horner(s: string): int
  {
    if s == [] then 0 else 10 * Horner(s[..|s| - 1]) + Ctoi(s[|s| - 1])
  }

  /** No step of the accumulation leaves the range of a 32-bit `int`
      (the source's overflow check has an empty body, and signed overflow is
      undefined in C, so callers must stay in range). */
  predicate NoOverflow(s: string)
  {
    forall k :: 0 < k <= |s| ==> StepFits(s, k)
  }

  /** Step `k` of the loop: `rslt * 10` and `rslt * 10 + ctoi(str[k-1])` both fit. */
  predicate StepFits(s: string, k: nat)
    requires 0 < k <= |s|
  {
    InInt(10 * Horner(s[..k - 1])) && InInt(Horner(s[..k]))
  }

  /** `stoi` */
  method Stoi(str: string) returns (rslt: int)
    requires IsCString(str)
    requires NoOverflow(str)
    ensures rslt == Horner(str)
    ensures InInt(rslt)
  {
    rslt := 0;
    var i := 0;
    while i < |str|
      invariant 0 <= i <= |str|
      invariant rslt == Horner(str[..i])
    {
      assert str[..i + 1][..i] == str[..i];
      rslt := rslt * 10 + Ctoi(str[i]);
      i := i + 1;
    }
    assert str[..|str|] == str;
    if |str| > 0 {
      assert StepFits(str, |str|);
    }
  }

  function Pow10(n: nat): (r: nat)
    ensures r >= 1
  {
    if n == 0 then 1 else 10 * Pow10(n - 1)
  }

  /** Positional decimal value, most significant digit first. */
  function DecimalValue(s: string): int
  {
    if s == [] then 0 else Ctoi(s[0]) * Pow10(|s| - 1) + DecimalValue(s[1..])
  }

  /** Prepending a character adds its weight at the highest position. */
  lemma {:induction false} HornerCons(c: char, t: string)
    ensures Horner([c] + t) == Ctoi(c) * Pow10(|t|) + Horner(t)
    decreases |t|
  {
    var s := [c] + t;
    if t != [] {
      var init := t[..|t| - 1];
      assert s[..|s| - 1] == [c] + init;
      HornerCons(c, init);
      var a, p := Ctoi(c), Pow10(|init|);
      assert 10 * (a * p) == a * (10 * p);
    } else {
      assert s[..|s| - 1] == [];
    }
  }

  /** Horner's accumulation equals the positional value, for any characters. */
  lemma {:induction false} HornerIsDecimal(s: string)
    ensures Horner(s) == DecimalValue(s)
  {
    if s != [] {
      assert s == [s[0]] + s[1..];
      HornerCons(s[0], s[1..]);
      HornerIsDecimal(s[1..]);
    }
  }

  /** A digit string's value lies in [0, 10^|s|). */
  lemma {:induction false} DigitsBounds(s: string)
    requires AllDigits(s)
    ensures 0 <= Horner(s) < Pow10(|s|)
  {
    if s != [] {
      DigitsBounds(s[..|s| - 1]);
    }
  }

  /** Leading zeros do not change the value. */
  lemma {:induction false} LeadingZero(s: string)
    ensures Horner("0" + s) == Horner(s)
  {
    if s != [] {
      assert ("0" + s)[..|"0" + s| - 1] == "0" + s[..|s| - 1];
      LeadingZero(s[..|s| - 1]);
    }
  }

  /** For a digit string whose value fits, every intermediate value fits too,
      so `stoi` returns the decimal value. */
  lemma {:induction false} DigitsNoOverflow(s: string)
    requires AllDigits(s) && Horner(s) <= INT_MAX
    ensures NoOverflow(s)
  {
    forall k | 0 < k <= |s|
      ensures StepFits(s, k)
    {
      PrefixBelow(s, k);
      PrefixBelow(s, k - 1);
      DigitsBounds(s[..k]);
      assert s[..k][..k - 1] == s[..k - 1];
      DigitsBounds(s[..k - 1]);
    }
  }

  /** On digit strings a prefix never has a larger value than the whole. */
  lemma {:induction false} PrefixBelow(s: string, k: nat)
    requires AllDigits(s) && k <= |s|
    ensures Horner(s[..k]) <= Horner(s)
    decreases |s| - k
  {
    if k < |s| {
      PrefixBelow(s, k + 1);
      assert s[..k + 1][..k] == s[..k];
      DigitsBounds(s[..k]);
    } else {
      assert s[..k] == s;
    }
  }

  /** `stoi("")` is 0, and each further character is one Horner step. */
  lemma HornerStep(s: string, c: char)
    ensures Horner([]) == 0
    ensures Horner(s + [c]) == 10 * Horner(s) + Ctoi(c)
  {
    assert (s + [c])[..|s|] == s;
  }

  /** Nothing is validated: a letter contributes its offset from '0'. */
  lemma NoValidation()
    ensures Horner("1a") == 10 + ('a' as int - '0' as int) == 59
  {
    assert "1a"[..1] == "1";
    assert "1"[..0] == [];
  }
}
