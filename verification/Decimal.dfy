/**
 Base-10 text of integers: strconv.Itoa and FormatInt on one side, Atoi and
 ParseInt at a given width on the other.
 */
module Decimal {
  import opened Types

  predicate IsDigit(c: char) {
    '0' <= c <= '9'
  }

  predicate AllDigits(s: string) {
    forall i :: 0 <= i < |s| ==> IsDigit(s[i])
  }

  function PrintNat(n: nat): (s: string)
    ensures |s| > 0 && AllDigits(s)
  {
    if n < 10 then ['0' + n as char] else PrintNat(n / 10) + ['0' + (n % 10) as char]
  }

  /** strconv.Itoa and strconv.FormatInt(n, 10). */
  function Print(n: int): string {
    if n < 0 then "-" + PrintNat(-n) else PrintNat(n)
  }

  function ParseDigits(s: string): nat
    requires AllDigits(s)
  {
    if s == [] then 0
    else 10 * ParseDigits(s[..|s| - 1]) + (s[|s| - 1] - '0') as int
  }

  function ParseSigned(s: string): Option<int> {
    var negative := s != [] && s[0] == '-';
    var digits := if s != [] && (s[0] == '-' || s[0] == '+') then s[1..] else s;
    if digits == [] || !AllDigits(digits) then None
    else
      var magnitude: int := ParseDigits(digits);
      Some(if negative then -magnitude else magnitude)
  }

  /** strconv.Atoi and strconv.ParseInt(s, 10, 64): None is a syntax or range error. */
  function ParseInt64(s: string): (r: Option<int>)
    ensures r.Some? ==> IsInt64(r.value)
  {
    var parsed := ParseSigned(s);
    if parsed.Some? && IsInt64(parsed.value) then parsed else None
  }

  /** strconv.ParseInt(s, 10, 32). */
  function ParseInt32(s: string): (r: Option<int>)
    ensures r.Some? ==> IsInt32(r.value)
  {
    var parsed := ParseSigned(s);
    if parsed.Some? && IsInt32(parsed.value) then parsed else None
  }

  lemma {:induction false} ParsePrintNat(n: nat)
    ensures ParseDigits(PrintNat(n)) == n
  {
    if n >= 10 {
      ParsePrintNat(n / 10);
      var s := PrintNat(n);
      assert s[..|s| - 1] == PrintNat(n / 10);
    }
  }

  /** Printing then parsing gives the number back, whatever its sign. */
  lemma ParsePrint(n: int)
    ensures ParseSigned(Print(n)) == Some(n)
    ensures Print(n) != ""
  {
    var digits := PrintNat(if n < 0 then -n else n);
    ParsePrintNat(if n < 0 then -n else n);
    if n < 0 {
      assert Print(n)[1..] == digits;
    } else {
      assert IsDigit(digits[0]);
    }
  }

  /** A number without its last `places` digits. */
  function Without(n: nat, places: nat): nat {
    if places == 0 then n else Without(n, places - 1) / 10
  }

  lemma {:induction false} WithoutFirst(n: nat, places: nat)
    ensures Without(n, places + 1) == Without(n / 10, places)
  {
    if places > 0 {
      WithoutFirst(n, places - 1);
    }
  }

  /** The digits stand in decimal order, the units last, with no zero in front of a positive number. */
  lemma {:induction false} DigitsInOrder(n: nat, place: nat)
    requires place < |PrintNat(n)|
    ensures var s := PrintNat(n); (s[|s| - 1 - place] - '0') as int == Without(n, place) % 10
    ensures n > 0 ==> PrintNat(n)[0] != '0'
    ensures Without(n, |PrintNat(n)|) == 0
  {
    if n >= 10 {
      DigitsInOrder(n / 10, if place == 0 then 0 else place - 1);
      WithoutFirst(n, |PrintNat(n / 10)|);
      if place > 0 {
        WithoutFirst(n, place - 1);
      }
    }
  }
}
