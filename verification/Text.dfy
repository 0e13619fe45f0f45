/** Decimal numbers and prefixes in strings. */
module Text {

  predicate IsDigit(c: char) { '0' <= c <= '9' }

  function Digit(d: nat): (c: char)
    requires d < 10
    ensures IsDigit(c)
  {
    '0' + d as char
  }

  function ValueOf(c: char): nat
    requires IsDigit(c)
  {
    (c - '0') as nat
  }

  function Decimal(n: nat): (s: string)
    ensures s != [] && IsDigit(s[0])
    decreases n
  {
    if n < 10 then [Digit(n)] else Decimal(n / 10) + [Digit(n % 10)]
  }

  /** The number that a string of digits continues from `acc`, and what follows it. */
  function ReadFrom(s: string, acc: nat): (nat, string)
    decreases |s|
  {
    if s != [] && IsDigit(s[0]) then ReadFrom(s[1..], 10 * acc + ValueOf(s[0])) else (acc, s)
  }

  function Read(s: string): (nat, string) { ReadFrom(s, 0) }

  lemma {:induction false} ReadsDigits(n: nat, rest: string)
    ensures ReadFrom(Decimal(n) + rest, 0) == ReadFrom(rest, n)
    decreases n
  {
    if n < 10 {
      assert (Decimal(n) + rest)[1..] == rest;
      assert ValueOf(Digit(n)) == n;
    } else {
      var d := [Digit(n % 10)];
      assert Decimal(n) + rest == Decimal(n / 10) + (d + rest);
      ReadsDigits(n / 10, d + rest);
      assert (d + rest)[1..] == rest && ValueOf(Digit(n % 10)) == n % 10;
    }
  }

  /** Reading undoes writing, up to the first character that is no digit. */
  lemma {:induction false} ReadsNumber(n: nat, rest: string)
    requires rest == [] || !IsDigit(rest[0])
    ensures Read(Decimal(n) + rest) == (n, rest)
  {
    ReadsDigits(n, rest);
  }

  predicate StartsWith(s: string, p: string) { p <= s }

  function Drop(s: string, p: string): string
    requires StartsWith(s, p)
  {
    s[|p|..]
  }
}
