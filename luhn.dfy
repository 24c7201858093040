/** The mod-10 "double-add-double" check digit of ISO/IEC 7812-1 (Annex B),
    as the Go, PHP, Java and Rust ports compute it: a right-to-left scan that
    adds the rightmost digit plain, then alternately doubled and plain, where a
    doubled digit v contributes the digit sum of 2v through a lookup table. */
module Luhn {
  import opened Text

  /** The ports' lookup table for a doubled digit. */
  const LuhnLookup: seq<nat> := [0, 2, 4, 6, 8, 1, 3, 5, 7, 9]

  /** Each table entry is the digit sum of twice its index. */
  lemma LookupIsDoubledDigitSum(v: nat)
    requires v < 10
    ensures LuhnLookup[v] == (2 * v) / 10 + (2 * v) % 10
    ensures LuhnLookup[v] == if 2 * v < 10 then 2 * v else 2 * v - 9
  {
  }

  /** What the digit `v` adds to the total when it stands `k` places from the
      right (the rightmost digit has k = 0 and is added plain). */
  function Contribution(v: nat, k: nat): (r: nat)
    requires v < 10
    ensures r < 10
  {
    if k % 2 == 1 then LuhnLookup[v] else v
  }

  /** A digit in an even place from the right is added as it is; one in an
      odd place adds the digit sum of its double. */
  lemma ContributionMeaning(v: nat, k: nat)
    requires v < 10
    ensures k % 2 == 0 ==> Contribution(v, k) == v
    ensures k % 2 == 1 ==> Contribution(v, k) == (2 * v) / 10 + (2 * v) % 10
  {
    LookupIsDoubledDigitSum(v);
  }

  /** The checksum total of the digits of `s` from position `i` on; each
      digit's weight depends on its distance from the right end. */
  function TotalFrom(s: string, i: nat): nat
    requires AllDigits(s) && i <= |s|
    decreases |s| - i
  {
    if i == |s| then 0 else Contribution(DigitValue(s[i]), |s| - 1 - i) + TotalFrom(s, i + 1)
  }

  /** A number passes the check when it is a non-empty run of ASCII digits
      whose total is a multiple of ten. */
  predicate LuhnValid(s: string)
  {
    |s| > 0 && AllDigits(s) && TotalFrom(s, 0) % 10 == 0
  }

  /** The right-to-left scan of libs/go/validator.go (also the loop of the
      Java, Rust and PHP ports): `x2` flips before each digit, so the rightmost
      digit is added plain; the first character outside '0'..'9' ends the scan
      with false. */
  method Luhn(number: string) returns (valid: bool)
    ensures valid == LuhnValid(number)
  {
    if |number| == 0 {
      return false;
    }
    var total := 0;
    var x2 := true;
    var i := |number| - 1;
    while i >= 0
      invariant -1 <= i < |number|
      invariant forall j :: i < j < |number| ==> IsDigit(number[j])
      invariant AllDigits(number) ==> total == TotalFrom(number, i + 1)
      invariant x2 == ((|number| - 1 - i) % 2 == 0)
    {
      var ch := number[i];
      if ch < '0' || ch > '9' {
        assert !AllDigits(number);
        return false;
      }
      var value := (ch as int) - ('0' as int);
      x2 := !x2;
      if x2 {
        total := total + LuhnLookup[value];
      } else {
        total := total + value;
      }
      i := i - 1;
    }
    return total % 10 == 0;
  }

  /** libs/php/src/CreditCardValidator.php: the same scan, but PHP's
      `empty()` also rejects the one-character string "0" up front. */
  method LuhnPhp(number: string) returns (valid: bool)
    ensures valid == (number != "0" && LuhnValid(number))
  {
    if number == "" || number == "0" {
      return false;
    }
    valid := Luhn(number);
  }

  /** libs/java/.../CreditCardValidator.java: a null number is not valid. */
  method LuhnJava(number: Option<string>) returns (valid: bool)
    ensures valid == (number.Some? && LuhnValid(number.value))
  {
    if number.None? {
      return false;
    }
    valid := Luhn(number.value);
  }

  /** PHP and the other ports disagree on exactly one input, "0": its total
      is 0, so the scan accepts it, but PHP's `empty("0")` rejects it first. */
  lemma PhpDiffersOnlyOnZero(number: string)
    ensures LuhnValid(number) && !(number != "0" && LuhnValid(number)) <==> number == "0"
  {
    if number == "0" {
      assert TotalFrom("0", 0) == 0;
    }
  }

  /** A Visa test number passes (total 40). */
  lemma ExampleVisaValid()
    ensures LuhnValid("4012001037141112")
  {
    var s := "4012001037141112";
    assert TotalFrom(s, 16) == 0;
    assert TotalFrom(s, 15) == 2;
    assert TotalFrom(s, 14) == 4;
    assert TotalFrom(s, 13) == 5;
    assert TotalFrom(s, 12) == 7;
    assert TotalFrom(s, 11) == 11;
    assert TotalFrom(s, 10) == 13;
    assert TotalFrom(s, 9) == 20;
    assert TotalFrom(s, 8) == 26;
    assert TotalFrom(s, 7) == 26;
    assert TotalFrom(s, 6) == 28;
    assert TotalFrom(s, 5) == 28;
    assert TotalFrom(s, 4) == 28;
    assert TotalFrom(s, 3) == 30;
    assert TotalFrom(s, 2) == 32;
    assert TotalFrom(s, 1) == 32;
    assert TotalFrom(s, 0) == 40;
  }

  /** Its last digit changed, it fails (total 41). */
  lemma ExampleVisaInvalid()
    ensures !LuhnValid("4012001037141113")
  {
    var s := "4012001037141113";
    assert TotalFrom(s, 16) == 0;
    assert TotalFrom(s, 15) == 3;
    assert TotalFrom(s, 14) == 5;
    assert TotalFrom(s, 13) == 6;
    assert TotalFrom(s, 12) == 8;
    assert TotalFrom(s, 11) == 12;
    assert TotalFrom(s, 10) == 14;
    assert TotalFrom(s, 9) == 21;
    assert TotalFrom(s, 8) == 27;
    assert TotalFrom(s, 7) == 27;
    assert TotalFrom(s, 6) == 29;
    assert TotalFrom(s, 5) == 29;
    assert TotalFrom(s, 4) == 29;
    assert TotalFrom(s, 3) == 31;
    assert TotalFrom(s, 2) == 33;
    assert TotalFrom(s, 1) == 33;
    assert TotalFrom(s, 0) == 41;
  }

  /** An American Express test number passes (total 60). */
  lemma ExampleAmexValid()
    ensures LuhnValid("378282246310005")
  {
    var s := "378282246310005";
    assert TotalFrom(s, 15) == 0;
    assert TotalFrom(s, 14) == 5;
    assert TotalFrom(s, 13) == 5;
    assert TotalFrom(s, 12) == 5;
    assert TotalFrom(s, 11) == 5;
    assert TotalFrom(s, 10) == 6;
    assert TotalFrom(s, 9) == 12;
    assert TotalFrom(s, 8) == 18;
    assert TotalFrom(s, 7) == 26;
    assert TotalFrom(s, 6) == 28;
    assert TotalFrom(s, 5) == 32;
    assert TotalFrom(s, 4) == 40;
    assert TotalFrom(s, 3) == 44;
    assert TotalFrom(s, 2) == 52;
    assert TotalFrom(s, 1) == 57;
    assert TotalFrom(s, 0) == 60;
  }

  /** The ports' unsupported-number example fails (total 64). */
  lemma ExampleSequenceInvalid()
    ensures !LuhnValid("1234567890123456")
  {
    var s := "1234567890123456";
    assert TotalFrom(s, 16) == 0;
    assert TotalFrom(s, 15) == 6;
    assert TotalFrom(s, 14) == 7;
    assert TotalFrom(s, 13) == 11;
    assert TotalFrom(s, 12) == 17;
    assert TotalFrom(s, 11) == 19;
    assert TotalFrom(s, 10) == 21;
    assert TotalFrom(s, 9) == 21;
    assert TotalFrom(s, 8) == 30;
    assert TotalFrom(s, 7) == 38;
    assert TotalFrom(s, 6) == 43;
    assert TotalFrom(s, 5) == 49;
    assert TotalFrom(s, 4) == 50;
    assert TotalFrom(s, 3) == 54;
    assert TotalFrom(s, 2) == 60;
    assert TotalFrom(s, 1) == 62;
    assert TotalFrom(s, 0) == 64;
  }

  /** The empty string and a number written with separators both fail. */
  lemma ExampleMalformed()
    ensures !LuhnValid("")
    ensures !LuhnValid("4012-0010-3714-1112")
  {
    assert !IsDigit("4012-0010-3714-1112"[4]);
  }

  /** Changing any single digit breaks a valid number: the checksum catches
      every one-digit transcription error. */
  lemma SingleDigitErrorDetected(s: string, i: nat, d: char)
    requires LuhnValid(s)
    requires i < |s| && IsDigit(d) && d != s[i]
    ensures !LuhnValid(s[i := d])
  {
    var t := s[i := d];
    var k := |s| - 1 - i;
    var a, b := DigitValue(s[i]), DigitValue(d);
    TotalDiff(s, t, i, 0);
    ContributionInjective(a, b, k);
    ModTenShift(TotalFrom(s, 0) - Contribution(a, k), Contribution(a, k), Contribution(b, k));
  }

  lemma ModTenShift(x: int, a: nat, b: nat)
    requires a < 10 && b < 10 && a != b
    requires (x + a) % 10 == 0
    ensures (x + b) % 10 != 0
  {
  }

  /** Two digit strings that differ only at position `i` have totals that
      differ by exactly the two contributions at `i`. */
  lemma {:induction false} TotalDiff(s: string, t: string, i: nat, j: nat)
    requires AllDigits(s) && AllDigits(t) && |s| == |t|
    requires i < |s| && j <= |s|
    requires forall p :: 0 <= p < |s| && p != i ==> s[p] == t[p]
    ensures var k := |s| - 1 - i;
      TotalFrom(s, j) + (if j <= i then Contribution(DigitValue(t[i]), k) else 0)
      == TotalFrom(t, j) + (if j <= i then Contribution(DigitValue(s[i]), k) else 0)
    decreases |s| - j
  {
    if j < |s| {
      TotalDiff(s, t, i, j + 1);
    }
  }

  lemma ContributionInjective(a: nat, b: nat, k: nat)
    requires a < 10 && b < 10 && a != b
    ensures Contribution(a, k) != Contribution(b, k)
  {
  }
}
